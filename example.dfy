/** A small collection converted end to end. */
module Examples {
  import opened Wrappers
  import opened Postman
  import opened Text
  import opened Variables
  import opened Grouping
  import opened Blueprint

  /** `GET /users` named `List`, inside a folder `Users`, in a collection named `API`. */
  function ListUsers(): Item
  {
    Item(Some("List"), None, Some(Request(Some("GET"), Some(UrlObject(Some(["users"]))), None)), None)
  }

  function UsersCollection(): Collection
  {
    Collection(Some(Info(Some("API"))), None, None, Some([Item(Some("Users"), None, None, Some([ListUsers()]))]))
  }

  lemma ExampleHeader()
    ensures Header(Some("http://localhost"), Some("API"), "").chunks
         == ["FORMAT: 1A\n", "HOST: http://localhost\n\n", "# API\n\n"]
    ensures Header(Some("http://localhost"), Some("API"), "").failure == None
  {
    assert FileFormat + "\n" == "FORMAT: 1A\n";
    assert "HOST: " + "http://localhost" + "\n\n" == "HOST: http://localhost\n\n";
    assert "# " + "API" + "\n\n" == "# API\n\n";
  }

  lemma ExampleEntry(loads: string -> Option<Json>)
    ensures Collect([ListUsers()], loads) == Collected([Keyed("users", "List", MethodEntry("GET", "", JString(""), ""))], None)
  {
    assert Join(["users"], '/') == "users";
    assert [ListUsers()][..0] == [];
  }

  lemma ExampleSection(dumps: Json -> string)
    ensures SectionText(1, "Users", [Resource("users", "List", [MethodEntry("GET", "", JString(""), "")])], dumps)
         == ["# Group 1.Users\n\n", "## List [/users]\n\n\n", "### GET users [GET]\n\n", "+ Response 200 (application/json)\n\n\n"]
  {
    var entry := MethodEntry("GET", "", JString(""), "");
    var rs := [Resource("users", "List", [entry])];
    assert NatToString(1) == "1";
    assert GroupHeading(1, "Users") == "# Group 1.Users\n\n";
    assert MethodTitle("users", entry) == "### GET users [GET]\n\n";
    assert [entry][..0] == [];
    assert MethodsText("users", [entry], dumps) == [MethodTitle("users", entry), ResponseLine];
    assert ResourceHeading(rs[0]) == "## List [/users]\n\n\n";
    assert rs[..0] == [];
  }

  /**
   * The collection converts to the header, one group, its resource and
   * its method, with the counter at 2 afterwards.
   */
  lemma OneFolderExample(loads: string -> Option<Json>, dumps: Json -> string)
    ensures Convert(UsersCollection(), loads, dumps)
      == Run(["FORMAT: 1A\n", "HOST: http://localhost\n\n", "# API\n\n", "# Group 1.Users\n\n",
              "## List [/users]\n\n\n", "### GET users [GET]\n\n", "+ Response 200 (application/json)\n\n\n"],
             [Resource("users", "List", [MethodEntry("GET", "", JString(""), "")])], 2, None)
  {
    var c := UsersCollection();
    var folder := c.item.value[0];
    assert DocumentDomain(WithVariables(map[], [])) == Some("http://localhost");
    ExampleHeader();
    ExampleEntry(loads);
    var k := Keyed("users", "List", MethodEntry("GET", "", JString(""), ""));
    assert [k][..0] == [];
    ExampleSection(dumps);
    assert [folder][..0] == [];
  }
}

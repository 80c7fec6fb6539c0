/**
 * The converter object. Its constructor reads the parsed collection into
 * fields, `write` emits the document into `out`, and the dictionary of
 * resources and the group counter live in fields that the methods update
 * in place.
 */
module Converter {
  import opened Wrappers
  import opened Postman
  import opened Text
  import opened Variables
  import opened Grouping
  import opened Blueprint

  class PostmanToApiary {
    /** `json.loads`, `None` when the text is not JSON. */
    const loads: string -> Option<Json>
    /** `json.dumps(value, indent=14)`. */
    const dumps: Json -> string

    var data: Collection
    var name: Option<string>
    var description: string
    var domain: Option<string>
    var folderNum: nat
    var resources: seq<Resource>
    var folders: Option<seq<Item>>
    var collectionVariable: VariableMap
    /** The output file: every chunk written to it since it was last truncated. */
    var out: seq<string>

    /** The dictionary of resources never holds a key twice. */
    ghost predicate Valid()
      reads this
    {
      DistinctPaths(resources)
    }

    /** Reads the collection's variables, title, description, host and top-level items. */
    constructor (data: Collection, loads: string -> Option<Json>, dumps: Json -> string)
      ensures Valid()
      ensures this.data == data && this.loads == loads && this.dumps == dumps
      ensures collectionVariable == WithVariables(map[], data.variable.GetOr([]))
      ensures name == DocumentName(data) && description == DocumentDescription(data)
      ensures domain == DocumentDomain(collectionVariable)
      ensures folders == data.item && folderNum == 1 && resources == [] && out == []
    {
      this.data := data;
      this.loads := loads;
      this.dumps := dumps;
      name := Some("");
      description := "";
      domain := Some("");
      folderNum := 1;
      resources := [];
      folders := Some([]);
      collectionVariable := map[];
      out := [];
      new;
      GetCollectionVariable();
      GetDocumentInfo();
      GetFolders();
    }

    /** Stores each `{key, value}` of the `variable` list, in order, into `collectionVariable`. */
    method GetCollectionVariable()
      modifies this`collectionVariable
      ensures collectionVariable == WithVariables(old(collectionVariable), data.variable.GetOr([]))
    {
      var variables := data.variable.GetOr([]);
      for i := 0 to |variables|
        invariant collectionVariable == WithVariables(old(collectionVariable), variables[..i])
      {
        assert variables[..i + 1][..i] == variables[..i];
        collectionVariable := collectionVariable[variables[i].key := variables[i].value];
      }
      assert variables[..|variables|] == variables;
    }

    /** Sets the title, the description (default `''`) and the host (default `http://localhost`). */
    method GetDocumentInfo()
      modifies this`name, this`description, this`domain
      ensures name == DocumentName(data) && description == DocumentDescription(data)
      ensures domain == DocumentDomain(collectionVariable)
    {
      name := match data.info case None => None case Some(info) => info.name;
      description := data.description.GetOr("");
      domain := if Some("domain") in collectionVariable then collectionVariable[Some("domain")]
                else Some("http://localhost");
    }

    /** Takes the top-level items; `None` when the collection has no `item` list. */
    method GetFolders()
      modifies this`folders
      ensures folders == data.item
    {
      folders := data.item;
    }

    /**
     * Groups one request item into the dictionary: a known path gets the
     * new method entry appended, a new path a new resource at the end.
     * An item that raises leaves the dictionary as it was.
     */
    method ProcessItem(item: Item) returns (failure: Option<Error>)
      requires Valid()
      modifies this`resources
      ensures Valid()
      ensures match ItemEntry(item, loads)
        case Success(k) => failure.None? && resources == Group(old(resources), k)
        case Failure(e) => failure == Some(e) && resources == old(resources)
    {
      var name, description := item.name.GetOr(""), item.description.GetOr("");
      if item.request.None? {
        return Some(NoRequest);
      }
      var request := item.request.value;
      if request.url.None? {
        return Some(NoUrl);
      }
      var url := request.url.value;
      if url.UrlString? {
        return Some(UrlIsString);
      }
      var path := Join(url.path.GetOr([]), '/');
      var httpMethod := request.httpMethod.GetOr("");
      var jsonData: Json;
      if httpMethod == "POST" || httpMethod == "PUT" {
        if request.body.None? {
          return Some(NoBody);
        }
        if request.body.value.raw.None? {
          return Some(NoRawBody);
        }
        var parsed := loads(request.body.value.raw.value);
        if parsed.None? {
          return Some(InvalidJsonBody);
        }
        jsonData := parsed.value;
      } else {
        jsonData := JString("");
      }
      var methodAttr := MethodEntry(httpMethod, description, jsonData, "");
      GroupDistinct(resources, Keyed(path, name, methodAttr));
      match Find(resources, path) {
        case Some(i) =>
          resources := resources[i := resources[i].(methods := resources[i].methods + [methodAttr])];
        case None =>
          resources := resources + [Resource(path, name, [methodAttr])];
      }
      failure := None;
    }

    /**
     * Groups the children of one top-level item, then writes its group
     * heading and every resource of the dictionary, and counts up.
     * A child that raises stops the folder before anything is written.
     */
    method ProcessFolder(folder: Item) returns (failure: Option<Error>)
      requires Valid()
      modifies this`resources, this`out, this`folderNum
      ensures Valid()
      ensures Run(out, resources, folderNum, failure)
           == FolderStep(Run(old(out), old(resources), old(folderNum), None), folder, loads, dumps)
    {
      var folderName := folder.name.GetOr("");
      var items := folder.item.GetOr([]);
      failure := ProcessItems(items);
      if failure.Some? {
        return;
      }
      WriteGroup(folderName);
    }

    /** Groups the items in order into the dictionary, stopping at the first that raises. */
    method ProcessItems(items: seq<Item>) returns (failure: Option<Error>)
      requires Valid()
      modifies this`resources
      ensures Valid()
      ensures failure == Collect(items, loads).failure
      ensures resources == GroupAll(old(resources), Collect(items, loads).entries)
    {
      for i := 0 to |items|
        invariant Valid()
        invariant Collect(items[..i], loads).failure.None?
        invariant resources == GroupAll(old(resources), Collect(items[..i], loads).entries)
      {
        failure := ProcessItem(items[i]);
        CollectSnoc(items, i, loads);
        if failure.Some? {
          CollectStopsAt(items, i + 1, loads);
          return;
        }
      }
      assert items[..|items|] == items;
      failure := None;
    }

    /** Writes the group heading numbered by the counter, counts up, and writes every resource. */
    method WriteGroup(folderName: string)
      modifies this`out, this`folderNum
      ensures folderNum == old(folderNum) + 1
      ensures out == old(out) + SectionText(old(folderNum), folderName, resources, dumps)
    {
      out := out + [GroupHeading(folderNum, folderName)];
      folderNum := folderNum + 1;
      ghost var heading := out;
      for r := 0 to |resources|
        invariant out == heading + ResourcesText(resources[..r], dumps)
        invariant folderNum == old(folderNum) + 1
      {
        WriteResource(resources[r]);
        ResourcesTextSnoc(resources, r, dumps);
        AppendAssoc(heading, ResourcesText(resources[..r], dumps), ResourceText(resources[r], dumps));
      }
      assert resources[..|resources|] == resources;
      AppendAssoc(old(out), [GroupHeading(old(folderNum), folderName)], ResourcesText(resources, dumps));
    }

    /** Writes a resource heading, then each of its method entries in append order. */
    method WriteResource(resource: Resource)
      modifies this`out
      ensures out == old(out) + ResourceText(resource, dumps)
    {
      out := out + [ResourceHeading(resource)];
      ghost var heading := out;
      for m := 0 to |resource.methods|
        invariant out == heading + MethodsText(resource.path, resource.methods[..m], dumps)
      {
        WriteMethod(resource.path, resource.methods[m]);
        MethodsTextSnoc(resource.path, resource.methods, m, dumps);
        AppendAssoc(heading, MethodsText(resource.path, resource.methods[..m], dumps), MethodText(resource.path, resource.methods[m], dumps));
      }
      assert resource.methods[..|resource.methods|] == resource.methods;
      AppendAssoc(old(out), [ResourceHeading(resource)], MethodsText(resource.path, resource.methods, dumps));
    }

    /** Writes one method entry: title, description if any, request block for POST/PUT, response line. */
    method WriteMethod(path: string, entry: MethodEntry)
      modifies this`out
      ensures out == old(out) + MethodText(path, entry, dumps)
    {
      out := out + [MethodTitle(path, entry)];
      if |entry.description| > 0 {
        out := out + [entry.description + "\n\n"];
      }
      out := out + RequestBlock(entry, dumps);
      out := out + [ResponseLine];
    }

    /**
     * Truncates the output, writes the header, then processes every
     * top-level item in order, stopping at the first error.
     */
    method Write() returns (failure: Option<Error>)
      requires Valid()
      modifies this`out, this`resources, this`folderNum
      ensures Valid()
      ensures Run(out, resources, folderNum, failure)
           == Document(domain, name, description, folders, old(resources), old(folderNum), loads, dumps)
    {
      out := [];
      failure := WriteHeader();
      if failure.Some? {
        return;
      }
      assert [] + Header(domain, name, description).chunks == Header(domain, name, description).chunks;
      if folders.None? {
        return Some(FoldersIsNone);
      }
      failure := ProcessFolders(folders.value);
    }

    /** The folder loop of `write`: each top-level item in order, stopping at the first error. */
    method ProcessFolders(fs: seq<Item>) returns (failure: Option<Error>)
      requires Valid()
      modifies this`out, this`resources, this`folderNum
      ensures Valid()
      ensures Run(out, resources, folderNum, failure)
           == RunFolders(Run(old(out), old(resources), old(folderNum), None), fs, loads, dumps)
    {
      ghost var start := Run(out, resources, folderNum, None);
      for i := 0 to |fs|
        invariant Valid()
        invariant RunFolders(start, fs[..i], loads, dumps) == Run(out, resources, folderNum, None)
      {
        failure := ProcessFolder(fs[i]);
        RunFoldersSnoc(start, fs, i, loads, dumps);
        if failure.Some? {
          RunFoldersStopsAt(start, fs, i + 1, loads, dumps);
          return;
        }
      }
      assert fs[..|fs|] == fs;
      failure := None;
    }

    /** Writes the format line, the host, the title and the description, stopping where a `None` is concatenated. */
    method WriteHeader() returns (failure: Option<Error>)
      modifies this`out
      ensures Emitted(out, failure) == Emitted(old(out) + Header(domain, name, description).chunks, Header(domain, name, description).failure)
    {
      out := out + [FileFormat + "\n"];
      if domain.None? {
        return Some(DomainIsNone);
      }
      out := out + ["HOST: " + domain.value + "\n\n"];
      if name.None? {
        return Some(NameIsNone);
      }
      out := out + ["# " + name.value + "\n\n"];
      if |description| > 0 {
        out := out + [description];
      }
      failure := None;
    }
  }

  /** Constructs a converter for a parsed collection and writes the document. */
  method Generate(data: Collection, loads: string -> Option<Json>, dumps: Json -> string)
    returns (out: seq<string>, failure: Option<Error>)
    ensures out == Convert(data, loads, dumps).out
    ensures failure == Convert(data, loads, dumps).failure
  {
    var app := new PostmanToApiary(data, loads, dumps);
    failure := app.Write();
    out := app.out;
  }
}

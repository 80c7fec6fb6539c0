/**
 * Grouping of requests into resources, as `process_item` does it: the
 * resource dictionary keeps insertion order, is keyed by the joined URL
 * path, and each resource collects the method entries for its path.
 */
module Grouping {
  import opened Wrappers
  import opened Postman
  import opened Text

  /** One method of a resource, the converter's `methodAttr` dictionary. */
  datatype MethodEntry = MethodEntry(
    httpMethod: string,
    description: string,
    requestBody: Json,
    responseBody: string)

  /** One value of the `resources` dictionary; `path` is also its key. */
  datatype Resource = Resource(path: string, name: string, methods: seq<MethodEntry>)

  /** What one request item contributes: its key, its display name and its method entry. */
  datatype Keyed = Keyed(path: string, name: string, entry: MethodEntry)

  /** The methods whose request body is parsed and written out. */
  predicate IsBodyMethod(httpMethod: string)
  {
    httpMethod == "POST" || httpMethod == "PUT"
  }

  /** The HTTP method of a request, `''` when absent. */
  function MethodOf(req: Request): string
  {
    req.httpMethod.GetOr("")
  }

  /**
   * What `process_item` derives from one item before touching the
   * dictionary, or the error at which it raises.
   */
  function ItemEntry(item: Item, loads: string -> Option<Json>): Result<Keyed, Error>
  {
    var name := item.name.GetOr("");
    var description := item.description.GetOr("");
    match item.request
    case None => Failure(NoRequest)
    case Some(req) =>
      match req.url
      case None => Failure(NoUrl)
      case Some(UrlString(_)) => Failure(UrlIsString)
      case Some(UrlObject(segments)) =>
        var path := Join(segments.GetOr([]), '/');
        var httpMethod := MethodOf(req);
        if IsBodyMethod(httpMethod) then
          match req.body
          case None => Failure(NoBody)
          case Some(body) =>
            match body.raw
            case None => Failure(NoRawBody)
            case Some(raw) =>
              match loads(raw)
              case None => Failure(InvalidJsonBody)
              case Some(json) => Success(Keyed(path, name, MethodEntry(httpMethod, description, json, "")))
        else
          Success(Keyed(path, name, MethodEntry(httpMethod, description, JString(""), "")))
  }

  /**
   * An item yields an entry exactly when it has a request with an object
   * url and, for POST and PUT, a raw body that parses; the entry is keyed
   * by the joined path segments (`''` without segments), carries the
   * item's name and description, an empty response body, and a request
   * body that is the parsed JSON for POST and PUT and `''` otherwise.
   */
  lemma ItemEntrySpec(item: Item, loads: string -> Option<Json>)
    ensures var e := ItemEntry(item, loads);
      e.Success? <==>
        && item.request.Some?
        && item.request.value.url.Some?
        && item.request.value.url.value.UrlObject?
        && (IsBodyMethod(MethodOf(item.request.value)) ==>
              && item.request.value.body.Some?
              && item.request.value.body.value.raw.Some?
              && loads(item.request.value.body.value.raw.value).Some?)
    ensures var e := ItemEntry(item, loads);
      e.Success? ==>
        && e.value.name == item.name.GetOr("")
        && e.value.path == Join(item.request.value.url.value.path.GetOr([]), '/')
        && e.value.entry.httpMethod == MethodOf(item.request.value)
        && e.value.entry.description == item.description.GetOr("")
        && e.value.entry.responseBody == ""
        && (IsBodyMethod(e.value.entry.httpMethod) ==>
              loads(item.request.value.body.value.raw.value) == Some(e.value.entry.requestBody))
        && (!IsBodyMethod(e.value.entry.httpMethod) ==> e.value.entry.requestBody == JString(""))
  {
  }

  /** The dictionary's keys, in insertion order. */
  function Paths(rs: seq<Resource>): seq<string>
  {
    seq(|rs|, i requires 0 <= i < |rs| => rs[i].path)
  }

  /** No key occurs twice. */
  predicate DistinctPaths(rs: seq<Resource>)
  {
    forall i, j :: 0 <= i < j < |rs| ==> rs[i].path != rs[j].path
  }

  /** The position of key `p` (`p in self.resources`), the first one if repeated. */
  function Find(rs: seq<Resource>, p: string): (i: Option<nat>)
    ensures i.Some? ==> i.value < |rs| && rs[i.value].path == p
    ensures i.Some? ==> forall j :: 0 <= j < i.value ==> rs[j].path != p
    ensures i.None? <==> p !in Paths(rs)
  {
    if |rs| == 0 then None
    else if rs[0].path == p then
      assert Paths(rs)[0] == p;
      Some(0)
    else
      match Find(rs[1..], p)
      case None =>
        assert Paths(rs) == [rs[0].path] + Paths(rs[1..]);
        None
      case Some(i) =>
        assert Paths(rs) == [rs[0].path] + Paths(rs[1..]);
        Some(i + 1)
  }

  /** The first resource with key `p` is the one `Find` returns. */
  lemma FindFirst(rs: seq<Resource>, p: string, i: nat)
    requires i < |rs| && rs[i].path == p
    requires forall j :: 0 <= j < i ==> rs[j].path != p
    ensures Find(rs, p) == Some(i)
  {
    assert Paths(rs)[i] == p;
  }

  /** Distinct keys, stated on the key sequence. */
  lemma DistinctPathsOfPaths(rs: seq<Resource>, r: seq<Resource>)
    requires DistinctPaths(rs) && Paths(r) == Paths(rs)
    ensures DistinctPaths(r)
  {
    forall i, j | 0 <= i < j < |r|
      ensures r[i].path != r[j].path
    {
      assert Paths(r)[i] == Paths(rs)[i] && Paths(r)[j] == Paths(rs)[j];
    }
  }

  /** The method entries stored under key `p`; none when `p` is not a key. */
  function MethodsAt(rs: seq<Resource>, p: string): seq<MethodEntry>
  {
    match Find(rs, p)
    case Some(i) => rs[i].methods
    case None => []
  }

  /** The display name stored under key `p`, if `p` is a key. */
  function NameAt(rs: seq<Resource>, p: string): Option<string>
  {
    match Find(rs, p)
    case Some(i) => Some(rs[i].name)
    case None => None
  }

  /**
   * The dictionary update of `process_item`: append the entry to the
   * resource already under its path, or add a resource at the end.
   */
  function Group(rs: seq<Resource>, k: Keyed): seq<Resource>
  {
    match Find(rs, k.path)
    case Some(i) => rs[i := rs[i].(methods := rs[i].methods + [k.entry])]
    case None => rs + [Resource(k.path, k.name, [k.entry])]
  }

  /** An entry for a known key keeps the key order; one for a new key adds that key at the end. */
  lemma GroupKeys(rs: seq<Resource>, k: Keyed)
    ensures Paths(Group(rs, k)) == if k.path in Paths(rs) then Paths(rs) else Paths(rs) + [k.path]
  {
    var r := Group(rs, k);
    if k.path in Paths(rs) {
      assert Paths(r) == Paths(rs);
    } else {
      assert Paths(r) == Paths(rs) + [k.path];
    }
  }

  /**
   * No resource already present changes its key or name, resources under
   * other keys are untouched, and a new key's resource holds just this
   * entry under the entry's name.
   */
  lemma GroupKeeps(rs: seq<Resource>, k: Keyed)
    ensures var r := Group(rs, k);
      && |r| == (if k.path in Paths(rs) then |rs| else |rs| + 1)
      && (forall j :: 0 <= j < |rs| ==> r[j].path == rs[j].path && r[j].name == rs[j].name)
      && (forall j :: 0 <= j < |rs| && rs[j].path != k.path ==> r[j] == rs[j])
      && (k.path !in Paths(rs) ==> r[|rs|] == Resource(k.path, k.name, [k.entry]))
  {
  }

  /** The entry becomes the last method under its key; the key's name is the first entry's. */
  lemma GroupAppends(rs: seq<Resource>, k: Keyed)
    ensures MethodsAt(Group(rs, k), k.path) == MethodsAt(rs, k.path) + [k.entry]
    ensures NameAt(Group(rs, k), k.path) == if k.path in Paths(rs) then NameAt(rs, k.path) else Some(k.name)
  {
    var r := Group(rs, k);
    match Find(rs, k.path)
    case Some(i) =>
      FindFirst(r, k.path, i);
    case None =>
      assert forall j :: 0 <= j < |rs| ==> Paths(rs)[j] == rs[j].path;
      FindFirst(r, k.path, |rs|);
  }

  /** Keys other than the entry's keep their method entries and names. */
  lemma GroupOtherPaths(rs: seq<Resource>, k: Keyed, p: string)
    requires p != k.path
    ensures MethodsAt(Group(rs, k), p) == MethodsAt(rs, p)
    ensures NameAt(Group(rs, k), p) == NameAt(rs, p)
  {
    var r := Group(rs, k);
    GroupKeys(rs, k);
    match Find(rs, p)
    case Some(i) =>
      FindFirst(r, p, i);
    case None =>
      assert p !in Paths(r);
  }

  /** Keys stay distinct. */
  lemma GroupDistinct(rs: seq<Resource>, k: Keyed)
    requires DistinctPaths(rs)
    ensures DistinctPaths(Group(rs, k))
  {
    var r := Group(rs, k);
    match Find(rs, k.path)
    case Some(i) =>
      assert Paths(r) == Paths(rs);
      DistinctPathsOfPaths(rs, r);
    case None =>
      assert forall j :: 0 <= j < |rs| ==> Paths(rs)[j] == rs[j].path;
  }

  /** `process_item` applied to a sequence of entries, in order. */
  function GroupAll(rs: seq<Resource>, ks: seq<Keyed>): seq<Resource>
  {
    if |ks| == 0 then rs else Group(GroupAll(rs, ks[..|ks| - 1]), ks[|ks| - 1])
  }

  /**
   * Grouping only adds: the resources already present keep their position,
   * key and name, and at most one resource is added per entry.
   */
  lemma {:induction false} GroupAllKeeps(rs: seq<Resource>, ks: seq<Keyed>)
    ensures var r := GroupAll(rs, ks);
      && |rs| <= |r| <= |rs| + |ks|
      && (forall j :: 0 <= j < |rs| ==> r[j].path == rs[j].path && r[j].name == rs[j].name)
  {
    if |ks| > 0 {
      GroupAllKeeps(rs, ks[..|ks| - 1]);
      GroupKeeps(GroupAll(rs, ks[..|ks| - 1]), ks[|ks| - 1]);
    }
  }

  /** Keys stay distinct through any run of entries. */
  lemma {:induction false} GroupAllDistinct(rs: seq<Resource>, ks: seq<Keyed>)
    requires DistinctPaths(rs)
    ensures DistinctPaths(GroupAll(rs, ks))
  {
    if |ks| > 0 {
      GroupAllDistinct(rs, ks[..|ks| - 1]);
      GroupDistinct(GroupAll(rs, ks[..|ks| - 1]), ks[|ks| - 1]);
    }
  }

  /** The method entries of the entries with key `p`, in order. */
  function MethodsFor(ks: seq<Keyed>, p: string): seq<MethodEntry>
  {
    if |ks| == 0 then []
    else MethodsFor(ks[..|ks| - 1], p) + (if ks[|ks| - 1].path == p then [ks[|ks| - 1].entry] else [])
  }

  /**
   * Grouping is correct: every entry with key `p` lands under that one key,
   * after the entries already there, in encounter order, and nothing else does.
   */
  lemma {:induction false} GroupAllMethods(rs: seq<Resource>, ks: seq<Keyed>, p: string)
    ensures MethodsAt(GroupAll(rs, ks), p) == MethodsAt(rs, p) + MethodsFor(ks, p)
  {
    if |ks| > 0 {
      var init := ks[..|ks| - 1];
      var k := ks[|ks| - 1];
      GroupAllMethods(rs, init, p);
      if k.path != p {
        GroupOtherPaths(GroupAll(rs, init), k, p);
      } else {
        GroupAppends(GroupAll(rs, init), k);
      }
    }
  }

  /** The keys of a run of entries, in order. */
  function EntryPaths(ks: seq<Keyed>): seq<string>
  {
    seq(|ks|, i requires 0 <= i < |ks| => ks[i].path)
  }

  /** A key is present after grouping exactly when it was before or some entry has it. */
  lemma {:induction false} GroupAllPaths(rs: seq<Resource>, ks: seq<Keyed>, p: string)
    ensures p in Paths(GroupAll(rs, ks)) <==> p in Paths(rs) || p in EntryPaths(ks)
  {
    if |ks| > 0 {
      var init := ks[..|ks| - 1];
      var k := ks[|ks| - 1];
      GroupAllPaths(rs, init, p);
      GroupKeys(GroupAll(rs, init), k);
      assert EntryPaths(ks) == EntryPaths(init) + [k.path];
    }
  }

  /** Index `i` holds the first entry with key `p`. */
  predicate IsFirstWithPath(ks: seq<Keyed>, i: int, p: string)
  {
    0 <= i < |ks| && ks[i].path == p && forall j :: 0 <= j < i ==> ks[j].path != p
  }

  /** A new key's resource is named after the first entry for it. */
  lemma {:induction false} GroupAllNameNew(rs: seq<Resource>, ks: seq<Keyed>, p: string, i: int)
    requires p !in Paths(rs)
    requires IsFirstWithPath(ks, i, p)
    ensures NameAt(GroupAll(rs, ks), p) == Some(ks[i].name)
  {
    var init := ks[..|ks| - 1];
    var k := ks[|ks| - 1];
    if i == |ks| - 1 {
      GroupAllPaths(rs, init, p);
      assert p !in EntryPaths(init);
      GroupAppends(GroupAll(rs, init), k);
    } else {
      GroupAllNameNew(rs, init, p, i);
      GroupAllPaths(rs, init, p);
      assert EntryPaths(init)[i] == p;
      if k.path == p {
        GroupAppends(GroupAll(rs, init), k);
      } else {
        GroupOtherPaths(GroupAll(rs, init), k, p);
      }
    }
  }

  /** An existing key keeps its name whatever entries follow. */
  lemma {:induction false} GroupAllNameKept(rs: seq<Resource>, ks: seq<Keyed>, p: string)
    requires p in Paths(rs)
    ensures NameAt(GroupAll(rs, ks), p) == NameAt(rs, p)
  {
    if |ks| > 0 {
      var init := ks[..|ks| - 1];
      var k := ks[|ks| - 1];
      GroupAllNameKept(rs, init, p);
      GroupAllPaths(rs, init, p);
      if k.path == p {
        GroupAppends(GroupAll(rs, init), k);
      } else {
        GroupOtherPaths(GroupAll(rs, init), k, p);
      }
    }
  }

  /** Grouping two runs of entries one after the other is grouping them together. */
  lemma {:induction false} GroupAllAppend(rs: seq<Resource>, a: seq<Keyed>, b: seq<Keyed>)
    ensures GroupAll(rs, a + b) == GroupAll(GroupAll(rs, a), b)
  {
    if |b| == 0 {
      assert a + b == a;
    } else {
      GroupAllAppend(rs, a, b[..|b| - 1]);
      assert (a + b)[..|a + b| - 1] == a + b[..|b| - 1];
    }
  }

  /** The entries of a run of items up to the first that fails, and that failure. */
  datatype Collected = Collected(entries: seq<Keyed>, failure: Option<Error>)

  /**
   * The entries that the loop of `process_folder` hands to the dictionary:
   * those of the items before the first failing one, and its error.
   */
  function Collect(items: seq<Item>, loads: string -> Option<Json>): Collected
  {
    if |items| == 0 then Collected([], None)
    else
      var c := Collect(items[..|items| - 1], loads);
      if c.failure.Some? then c
      else
        match ItemEntry(items[|items| - 1], loads)
        case Success(k) => Collected(c.entries + [k], None)
        case Failure(e) => Collected(c.entries, Some(e))
  }

  /**
   * The entries collected are those of the leading items, in order; either
   * every item was taken, or the first item not taken is the one that raised.
   */
  lemma {:induction false} CollectSpec(items: seq<Item>, loads: string -> Option<Json>)
    ensures var c := Collect(items, loads);
      && |c.entries| <= |items|
      && (forall i :: 0 <= i < |c.entries| ==> ItemEntry(items[i], loads) == Success(c.entries[i]))
      && (c.failure.None? ==> |c.entries| == |items|)
      && (c.failure.Some? ==>
        |c.entries| < |items| && ItemEntry(items[|c.entries|], loads) == Failure(c.failure.value))
  {
    if |items| > 0 {
      var prefix := items[..|items| - 1];
      CollectSpec(prefix, loads);
      var c := Collect(prefix, loads);
      forall i | 0 <= i < |c.entries|
        ensures items[i] == prefix[i]
      {
      }
    }
  }

  /** One more item either adds its entry or records its error; an earlier error stays. */
  lemma CollectSnoc(items: seq<Item>, i: nat, loads: string -> Option<Json>)
    requires i < |items| && Collect(items[..i], loads).failure.None?
    ensures var c := Collect(items[..i], loads);
      match ItemEntry(items[i], loads)
      case Success(k) => Collect(items[..i + 1], loads) == Collected(c.entries + [k], None)
      case Failure(e) => Collect(items[..i + 1], loads) == Collected(c.entries, Some(e))
  {
    assert items[..i + 1][..i] == items[..i];
  }

  /** Once an item has failed, the items after it are never looked at. */
  lemma {:induction false} CollectStops(xs: seq<Item>, ys: seq<Item>, loads: string -> Option<Json>)
    requires Collect(xs, loads).failure.Some?
    ensures Collect(xs + ys, loads) == Collect(xs, loads)
  {
    if |ys| > 0 {
      CollectStops(xs, ys[..|ys| - 1], loads);
      assert (xs + ys)[..|xs + ys| - 1] == xs + ys[..|ys| - 1];
    } else {
      assert xs + ys == xs;
    }
  }

  /** An item that raises ends the collection: collecting all items is collecting up to it. */
  lemma CollectStopsAt(items: seq<Item>, n: nat, loads: string -> Option<Json>)
    requires n <= |items| && Collect(items[..n], loads).failure.Some?
    ensures Collect(items, loads) == Collect(items[..n], loads)
  {
    CollectStops(items[..n], items[n..], loads);
    assert items[..n] + items[n..] == items;
  }
}

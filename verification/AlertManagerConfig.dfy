/** Rewriting of the Alertmanager configuration (internal/controller/alertmanager.go),
    on parsed documents. Receivers are recognised by "name", routes by "receiver". */
module AlertManagerConfig {
  import opened Options

  datatype Value =
    | Null
    | Text(text: string)
    | Flag(flag: bool)
    | Number(number: real)
    | List(items: seq<Value>)
    | Table(entries: map<string, Value>)

  type Document = map<string, Value>

  /** The list under a key; anything else counts as an empty list. */
  function ListAt(d: Document, key: string): seq<Value> {
    if key in d && d[key].List? then d[key].items else []
  }

  /** The test of the upserts: the field is a string and equals the name. */
  predicate Carries(v: Value, field: string, name: string) {
    v.Table? && field in v.entries && v.entries[field] == Text(name)
  }

  /** The test of the removals: a field that is missing or no string counts as "". */
  predicate Removable(v: Value, field: string, name: string) {
    v.Table? && (if field in v.entries && v.entries[field].Text? then v.entries[field].text else "") == name
  }

  /** Replace the first entry of that name, or append. */
  function Upsert(list: seq<Value>, field: string, name: string, entry: Value): seq<Value> {
    if list == [] then [entry]
    else if Carries(list[0], field, name) then [entry] + list[1..]
    else [list[0]] + Upsert(list[1..], field, name, entry)
  }

  function Remove(list: seq<Value>, field: string, name: string): seq<Value> {
    if list == [] then []
    else (if Removable(list[0], field, name) then [] else [list[0]]) + Remove(list[1..], field, name)
  }

  function Receiver(name: string, url: string): Value {
    Table(map["name" := Text(name),
              "webhook_configs" := List([Table(map["url" := Text(url), "send_resolved" := Flag(true)])])])
  }

  function ContinueRoute(name: string): Value {
    Table(map["receiver" := Text(name), "continue" := Flag(true), "repeat_interval" := Text("24h")])
  }

  function RouteOf(d: Document): Document {
    if "route" in d && d["route"].Table? then d["route"].entries else map[]
  }

  /** What a missing document counts as. */
  function Parsed(config: Option<Document>): Document {
    if config.Some? then config.value else map[]
  }

  function UpsertDocument(config: Option<Document>, name: string, url: string): Document {
    var d := Parsed(config);
    var receivers := Upsert(ListAt(d, "receivers"), "name", name, Receiver(name, url));
    var routes := Upsert(ListAt(RouteOf(d), "routes"), "receiver", name, ContinueRoute(name));
    d["receivers" := List(receivers)]["route" := Table(RouteOf(d)["routes" := List(routes)])]
  }

  function DeleteDocument(config: Option<Document>, name: string): Option<Document> {
    if config.None? then None
    else
      var d := config.value["receivers" := List(Remove(ListAt(config.value, "receivers"), "name", name))];
      if "route" in d && d["route"].Table? then
        Some(d["route" := Table(RouteOf(d)["routes" := List(Remove(ListAt(RouteOf(d), "routes"), "receiver", name))])])
      else Some(d)
  }

  // ---------------------------------------------------------------- the code

  /** An upsert happens at the first entry of that name, else at the end. */
  lemma {:induction false} UpsertAt(list: seq<Value>, i: nat, field: string, name: string, entry: Value)
    requires i <= |list|
    requires forall k :: 0 <= k < i ==>
      !(list[k].Table? && field in list[k].entries && list[k].entries[field] == Text(name))
    requires i < |list| ==> list[i].Table? && field in list[i].entries && list[i].entries[field] == Text(name)
    ensures Upsert(list, field, name, entry) == if i < |list| then list[i := entry] else list + [entry]
  {
    if i > 0 {
      UpsertAt(list[1..], i - 1, field, name, entry);
      assert list == [list[0]] + list[1..];
    }
  }

  /** upsertReceiver and upsertRoute, which differ in the field and the entry only. */
  method UpsertEntry(raw: Option<Value>, field: string, name: string, entry: Value) returns (list: seq<Value>)
    ensures list == Upsert(if raw.Some? && raw.value.List? then raw.value.items else [], field, name, entry)
  {
    list := [];
    if raw.Some? && raw.value.List? {
      list := raw.value.items;
    }
    var i := 0;
    while i < |list|
      invariant 0 <= i <= |list|
      invariant list == if raw.Some? && raw.value.List? then raw.value.items else []
      invariant forall k :: 0 <= k < i ==> !Carries(list[k], field, name)
    {
      if list[i].Table? && field in list[i].entries && list[i].entries[field].Text? {
        if list[i].entries[field].text == name {
          UpsertAt(list, i, field, name, entry);
          list := list[i := entry];
          return;
        }
      }
      i := i + 1;
    }
    UpsertAt(list, i, field, name, entry);
    list := list + [entry];
  }

  /** The test inside the loops of the removals. */
  method Skips(v: Value, field: string, name: string) returns (skip: bool)
    ensures skip == Removable(v, field, name)
  {
    skip := false;
    if v.Table? {
      var found := "";
      if field in v.entries && v.entries[field].Text? {
        found := v.entries[field].text;
      }
      skip := found == name;
    }
  }

  /** removeReceiver and removeRoute. */
  method RemoveEntries(raw: Option<Value>, field: string, name: string) returns (out: seq<Value>)
    ensures out == Remove(if raw.Some? && raw.value.List? then raw.value.items else [], field, name)
  {
    var list := [];
    if raw.Some? && raw.value.List? {
      list := raw.value.items;
    }
    out := [];
    var i := 0;
    while i < |list|
      invariant 0 <= i <= |list|
      invariant out == Remove(list[..i], field, name)
    {
      RemoveNext(list, i, field, name);
      var skip := Skips(list[i], field, name);
      if !skip {
        out := out + [list[i]];
      }
      i := i + 1;
    }
    assert list[..i] == list;
  }

  lemma RemoveNext(list: seq<Value>, i: nat, field: string, name: string)
    requires i < |list|
    ensures Remove(list[..i + 1], field, name) ==
      Remove(list[..i], field, name) + (if Removable(list[i], field, name) then [] else [list[i]])
  {
    RemoveJoin(list[..i], [list[i]], field, name);
    assert list[..i + 1] == list[..i] + [list[i]];
    assert [list[i]][1..] == [];
  }

  method UpsertWebhookReceiver(parsed: Option<Document>, name: string, url: string) returns (config: Document)
    ensures config == UpsertDocument(parsed, name, url)
  {
    config := map[];
    if parsed.Some? {
      config := parsed.value;
    }
    var stored := if "receivers" in config then Some(config["receivers"]) else None;
    var receivers := UpsertEntry(stored, "name", name, Receiver(name, url));
    config := config["receivers" := List(receivers)];
    var route := map[];
    if "route" in config && config["route"].Table? {
      route := config["route"].entries;
    }
    stored := if "routes" in route then Some(route["routes"]) else None;
    var routes := UpsertEntry(stored, "receiver", name, ContinueRoute(name));
    route := route["routes" := List(routes)];
    config := config["route" := Table(route)];
  }

  method DeleteWebhookReceiver(parsed: Option<Document>, name: string) returns (config: Option<Document>)
    ensures config == DeleteDocument(parsed, name)
  {
    if parsed.None? {
      return None;
    }
    var d := parsed.value;
    var receivers := RemoveEntries(if "receivers" in d then Some(d["receivers"]) else None, "name", name);
    d := d["receivers" := List(receivers)];
    if "route" in d && d["route"].Table? {
      var route := d["route"].entries;
      var routes := RemoveEntries(if "routes" in route then Some(route["routes"]) else None, "receiver", name);
      d := d["route" := Table(route["routes" := List(routes)])];
    }
    config := Some(d);
  }

  // ---------------------------------------------------------------- the algebra of the lists

  lemma {:induction false} UpsertTwice(list: seq<Value>, field: string, name: string, entry: Value)
    requires Carries(entry, field, name)
    ensures Upsert(Upsert(list, field, name, entry), field, name, entry) == Upsert(list, field, name, entry)
  {
    if list != [] && !Carries(list[0], field, name) { UpsertTwice(list[1..], field, name, entry); }
  }

  lemma {:induction false} RemoveUndoesUpsert(list: seq<Value>, field: string, name: string, entry: Value)
    requires Carries(entry, field, name)
    ensures Remove(Upsert(list, field, name, entry), field, name) == Remove(list, field, name)
  {
    if list == [] {
      assert [entry][1..] == [];
    } else if Carries(list[0], field, name) {
      assert ([entry] + list[1..])[1..] == list[1..];
    } else {
      RemoveUndoesUpsert(list[1..], field, name, entry);
    }
  }

  /** Removal leaves exactly the entries that are no maps or whose own field holds another
      name; where it holds none, they count as named "". */
  lemma {:induction false} RemoveKeepsOthers(list: seq<Value>, field: string, name: string, v: Value)
    ensures v in Remove(list, field, name) <==>
      v in list &&
      (v.Table? ==>
        if field in v.entries && v.entries[field].Text? then v.entries[field] != Text(name) else name != "")
  {
    if list != [] {
      RemoveKeepsOthers(list[1..], field, name, v);
      assert list == [list[0]] + list[1..];
    }
  }

  /** And leaves them as often and in the order they were: removal splits over concatenation. */
  lemma {:induction false} RemoveJoin(list: seq<Value>, more: seq<Value>, field: string, name: string)
    ensures Remove(list + more, field, name) == Remove(list, field, name) + Remove(more, field, name)
  {
    if list == [] {
      assert list + more == more;
    } else {
      assert (list + more)[1..] == list[1..] + more;
      RemoveJoin(list[1..], more, field, name);
    }
  }

  lemma {:induction false} RemoveTwice(list: seq<Value>, field: string, name: string)
    ensures Remove(Remove(list, field, name), field, name) == Remove(list, field, name)
  {
    if list != [] {
      var rest := Remove(list[1..], field, name);
      RemoveTwice(list[1..], field, name);
      if Removable(list[0], field, name) {
        assert Remove(list, field, name) == rest;
      } else {
        assert Remove(list, field, name) == [list[0]] + rest;
        assert ([list[0]] + rest)[1..] == rest;
      }
    }
  }

  // ---------------------------------------------------------------- whole documents

  lemma UpsertedLists(config: Option<Document>, name: string, url: string)
    ensures var d, up := Parsed(config), UpsertDocument(config, name, url);
      && ListAt(up, "receivers") == Upsert(ListAt(d, "receivers"), "name", name, Receiver(name, url))
      && "route" in up && up["route"].Table?
      && ListAt(RouteOf(up), "routes") == Upsert(ListAt(RouteOf(d), "routes"), "receiver", name, ContinueRoute(name))
  {
    var d, up := Parsed(config), UpsertDocument(config, name, url);
    var routes := Upsert(ListAt(RouteOf(d), "routes"), "receiver", name, ContinueRoute(name));
    assert RouteOf(up) == RouteOf(d)["routes" := List(routes)];
  }

  lemma DeletedLists(d: Document, name: string)
    ensures var del := DeleteDocument(Some(d), name).value;
      && ListAt(del, "receivers") == Remove(ListAt(d, "receivers"), "name", name)
      && ListAt(RouteOf(del), "routes") == Remove(ListAt(RouteOf(d), "routes"), "receiver", name)
  {
    var del := DeleteDocument(Some(d), name).value;
    if "route" in d && d["route"].Table? {
      assert RouteOf(del) == RouteOf(d)["routes" := List(Remove(ListAt(RouteOf(d), "routes"), "receiver", name))];
    } else {
      assert RouteOf(del) == map[] && RouteOf(d) == map[];
    }
  }

  /** A second upsert changes nothing. */
  lemma UpsertIdempotent(config: Option<Document>, name: string, url: string)
    ensures UpsertDocument(Some(UpsertDocument(config, name, url)), name, url) == UpsertDocument(config, name, url)
  {
    var d := Parsed(config);
    var receivers := Upsert(ListAt(d, "receivers"), "name", name, Receiver(name, url));
    var routes := Upsert(ListAt(RouteOf(d), "routes"), "receiver", name, ContinueRoute(name));
    UpsertTwice(ListAt(d, "receivers"), "name", name, Receiver(name, url));
    UpsertTwice(ListAt(RouteOf(d), "routes"), "receiver", name, ContinueRoute(name));
    var route := RouteOf(d)["routes" := List(routes)];
    var up := UpsertDocument(config, name, url);
    assert ListAt(up, "receivers") == receivers && RouteOf(up) == route && ListAt(route, "routes") == routes;
    assert route["routes" := List(routes)] == route;
    assert up["receivers" := List(receivers)]["route" := Table(route)] == up;
  }

  /** Deleting after an upsert leaves the receivers and the routes that deleting alone
      leaves: the upsert is undone completely. */
  lemma DeleteUndoesUpsert(config: Option<Document>, name: string, url: string)
    ensures var undone := DeleteDocument(Some(UpsertDocument(config, name, url)), name);
      var alone := DeleteDocument(Some(Parsed(config)), name);
      && ListAt(undone.value, "receivers") == ListAt(alone.value, "receivers")
      && ListAt(RouteOf(undone.value), "routes") == ListAt(RouteOf(alone.value), "routes")
  {
    var d := Parsed(config);
    UpsertedLists(config, name, url);
    DeletedLists(UpsertDocument(config, name, url), name);
    DeletedLists(d, name);
    RemoveUndoesUpsert(ListAt(d, "receivers"), "name", name, Receiver(name, url));
    RemoveUndoesUpsert(ListAt(RouteOf(d), "routes"), "receiver", name, ContinueRoute(name));
  }

  /** Both rewrites keep every other key of the document and of the route; a delete leaves
      alone what is no document and what is no route. */
  lemma KeysUntouched(d: Document, name: string, url: string)
    ensures DeleteDocument(None, name) == None && DeleteDocument(Some(d), name).Some?
    ensures var del := DeleteDocument(Some(d), name).value;
      && ("route" in del <==> "route" in d)
      && ("route" in d && !d["route"].Table? ==> del["route"] == d["route"])
    ensures var up, del := UpsertDocument(Some(d), name, url), DeleteDocument(Some(d), name).value;
      && up - {"receivers", "route"} == d - {"receivers", "route"} == del - {"receivers", "route"}
      && RouteOf(up) - {"routes"} == RouteOf(d) - {"routes"} == RouteOf(del) - {"routes"}
  {
  }

  /** The list that stands under a key; no list counts as an empty one. */
  ghost predicate Holds(d: Document, key: string, list: seq<Value>) {
    if key in d && d[key].List? then d[key] == List(list) else list == []
  }

  /** The entries that an upsert puts in: the receiver posts to the URL, resolutions too, and
      the route goes on to the next one and does not repeat within a day. */
  ghost predicate Wanted(receiver: Value, route: Value, name: string, url: string) {
    && receiver == Table(map["name" := Text(name),
         "webhook_configs" := List([Table(map["url" := Text(url), "send_resolved" := Flag(true)])])])
    && route == Table(map["receiver" := Text(name), "continue" := Flag(true), "repeat_interval" := Text("24h")])
  }

  /** Both keep every other entry of both lists in its order; after an upsert the wanted
      entries are there, after a delete nothing carries the name. */
  lemma ListsUntouched(d: Document, name: string, url: string, receivers: seq<Value>, routes: seq<Value>,
                       receiver: Value, route: Value)
    requires Holds(d, "receivers", receivers) && Wanted(receiver, route, name, url)
    requires Holds(if "route" in d && d["route"].Table? then d["route"].entries else map[], "routes", routes)
    ensures var up, del := UpsertDocument(Some(d), name, url), DeleteDocument(Some(d), name).value;
      && "receivers" in up && up["receivers"].List? && "receivers" in del && del["receivers"].List?
      && SameOthers(receivers, up["receivers"].items, del["receivers"].items, "name", name, receiver)
    ensures var up, del := UpsertDocument(Some(d), name, url), DeleteDocument(Some(d), name).value;
      && "route" in up && up["route"].Table? && "routes" in up["route"].entries && up["route"].entries["routes"].List?
      && ("route" in d ==> "route" in del && (d["route"].Table? <==> del["route"].Table?))
      && (if "route" in d && d["route"].Table? then
            && "routes" in del["route"].entries && del["route"].entries["routes"].List?
            && SameOthers(routes, up["route"].entries["routes"].items, del["route"].entries["routes"].items,
                          "receiver", name, route)
          else
            up["route"].entries["routes"].items == [route])
  {
    UpsertedLists(Some(d), name, url);
    DeletedLists(d, name);
    RewrittenLists(receivers, "name", name, receiver);
    RewrittenLists(routes, "receiver", name, route);
  }

  /** What the rewrites make of a list: without the entries of the name, all three are the
      same; the upsert has its entry; the delete carries the name nowhere, keeps every
      other entry in its place among the others, and is not changed by another delete. */
  ghost predicate SameOthers(list: seq<Value>, up: seq<Value>, del: seq<Value>,
                             field: string, name: string, entry: Value)
  {
    && Remove(up, field, name) == Remove(list, field, name) == Remove(del, field, name) == del
    && entry in up
    && (forall v :: v in del ==> !Carries(v, field, name))
    && forall i :: 0 <= i < |list| && !Removable(list[i], field, name) ==>
         del == Remove(list[..i], field, name) + [list[i]] + Remove(list[i + 1..], field, name)
  }

  lemma KeptInOrder(list: seq<Value>, i: nat, field: string, name: string)
    requires i < |list| && !Removable(list[i], field, name)
    ensures Remove(list, field, name) ==
      Remove(list[..i], field, name) + [list[i]] + Remove(list[i + 1..], field, name)
  {
    RemoveNext(list, i, field, name);
    RemoveJoin(list[..i + 1], list[i + 1..], field, name);
    assert list == list[..i + 1] + list[i + 1..];
  }

  lemma RewrittenLists(list: seq<Value>, field: string, name: string, entry: Value)
    requires Carries(entry, field, name)
    ensures SameOthers(list, Upsert(list, field, name, entry), Remove(list, field, name), field, name, entry)
  {
    RemoveUndoesUpsert(list, field, name, entry);
    RemoveTwice(list, field, name);
    Upserted(list, field, name, entry);
    forall i | 0 <= i < |list| && !Removable(list[i], field, name)
      ensures Remove(list, field, name) ==
        Remove(list[..i], field, name) + [list[i]] + Remove(list[i + 1..], field, name)
    {
      KeptInOrder(list, i, field, name);
    }
    forall v | v in Remove(list, field, name)
      ensures !Carries(v, field, name)
    {
      RemoveKeepsOthers(list, field, name, v);
    }
  }

  lemma {:induction false} Upserted(list: seq<Value>, field: string, name: string, entry: Value)
    ensures entry in Upsert(list, field, name, entry)
  {
    if list != [] && !Carries(list[0], field, name) { Upserted(list[1..], field, name, entry); }
  }

  /** A value with other routes in it, if it has room for routes at all. */
  function WithRoutes(v: Value, routes: seq<Value>): Value {
    if v.Table? then Table(v.entries["routes" := List(routes)]) else v
  }

  /** An upsert keeps what there was, but for the list of routes in it, exactly when there
      was no route or it was a map; a route of any other form is lost. */
  lemma RouteKeptExactly(d: Document, name: string, url: string)
    ensures var up := UpsertDocument(Some(d), name, url);
      ("route" in d ==> exists routes :: up["route"] == WithRoutes(d["route"], routes)) <==>
      ("route" !in d || d["route"].Table?)
  {
    var routes := Upsert(ListAt(RouteOf(d), "routes"), "receiver", name, ContinueRoute(name));
    var up := UpsertDocument(Some(d), name, url);
    if "route" in d && d["route"].Table? {
      assert up["route"] == WithRoutes(d["route"], routes);
    }
  }
}

/**
 * Route registration (src/application.ts, class Router and the generated
 * get/post/put/patch/delete registrars). The routing trie is an external
 * library; it is kept abstract as a table from the joined path string to the
 * node defined for it.
 */
module Routing {
  import opened Wrappers
  import opened Utils
  import opened Http

  /** A route handler: its identity, and the value it throws synchronously, if any. */
  datatype Handler = Handler(id: nat, throws: Option<Thrown>)

  /** A trie node: one handler slot per upper-cased method name, and the router marker. */
  datatype Node = Node(handlers: map<string, Handler>, router: Option<Router>)

  const EmptyNode: Node := Node(map[], None)

  /** `strEnum(['get', 'post', 'put', 'patch', 'delete'])`: one registrar per key. */
  const HttpMethods: map<string, string> := StrEnum(["get", "post", "put", "patch", "delete"])

  /** The names of the registrars the Router prototype receives. */
  lemma RegistrarNames()
    ensures HttpMethods.Keys == {"get", "post", "put", "patch", "delete"}
  {
    var xs := ["get", "post", "put", "patch", "delete"];
    forall x | x in xs ensures x in {"get", "post", "put", "patch", "delete"} { }
    assert (set x | x in xs) == {"get", "post", "put", "patch", "delete"};
  }

  /** The slot each registrar fills: the upper-cased method name. */
  lemma SlotNames()
    ensures Upper("get") == "GET" && Upper("post") == "POST" && Upper("put") == "PUT"
    ensures Upper("patch") == "PATCH" && Upper("delete") == "DELETE"
  {
    UpperSpells("get", "GET");
    UpperSpells("post", "POST");
    UpperSpells("put", "PUT");
    UpperSpells("patch", "PATCH");
    UpperSpells("delete", "DELETE");
  }

  lemma UpperSpells(lower: string, upper: string)
    requires |lower| == |upper|
    requires forall i :: 0 <= i < |lower| ==> 'a' <= lower[i] <= 'z' && upper[i] == lower[i] - 'a' + 'A'
    ensures Upper(lower) == upper
  {
  }

  /** `toUpperCase` on the ASCII letters the method names use. */
  function Upper(s: string): (r: string)
    ensures |r| == |s|
    ensures forall i :: 0 <= i < |s| ==> r[i] == if 'a' <= s[i] <= 'z' then s[i] - 'a' + 'A' else s[i]
  {
    if s == [] then []
    else [if 'a' <= s[0] <= 'z' then s[0] - 'a' + 'A' else s[0]] + Upper(s[1..])
  }

  /** Removes one leading `/`, if there is one. */
  function StripSlash(s: string): (r: string)
    ensures s == r || s == "/" + r
    ensures |r| < |s| <==> |s| > 0 && s[0] == '/'
  {
    if |s| > 0 && s[0] == '/' then s[1..] else s
  }

  /** `segs.join('/')`. */
  function Join(segs: seq<string>): string {
    if segs == [] then ""
    else if |segs| == 1 then segs[0]
    else segs[0] + "/" + Join(segs[1..])
  }

  /** `s.split('/')`, the inverse of `Join` for segments without a slash. */
  function Split(s: string): (r: seq<string>)
    ensures r != []
  {
    if s == [] then [""]
    else
      var rest := Split(s[1..]);
      if s[0] == '/' then [""] + rest else [[s[0]] + rest[0]] + rest[1..]
  }

  predicate NoSlash(seg: string) {
    forall i :: 0 <= i < |seg| ==> seg[i] != '/'
  }

  lemma {:induction false} SplitAt(a: string, b: string)
    requires NoSlash(a)
    ensures Split(a + "/" + b) == [a] + Split(b)
  {
    if a != [] {
      assert (a + "/" + b)[1..] == a[1..] + "/" + b;
      SplitAt(a[1..], b);
      assert [a[0]] + a[1..] == a;
    } else {
      assert (a + "/" + b)[1..] == b;
    }
  }

  lemma {:induction false} SplitNoSlash(a: string)
    requires NoSlash(a)
    ensures Split(a) == [a]
  {
    if a != [] {
      SplitNoSlash(a[1..]);
      assert [a[0]] + a[1..] == a;
    }
  }

  /** Splitting a joined path on `/` gives back its segments. */
  lemma {:induction false} SplitJoin(segs: seq<string>)
    requires segs != [] && forall i :: 0 <= i < |segs| ==> NoSlash(segs[i])
    ensures Split(Join(segs)) == segs
  {
    if |segs| == 1 {
      SplitNoSlash(segs[0]);
    } else {
      SplitJoin(segs[1..]);
      SplitAt(segs[0], Join(segs[1..]));
    }
  }

  /** Appending a segment to a non-empty list appends `/` and the segment to the joined path. */
  lemma {:induction false} JoinSnoc(segs: seq<string>, last: string)
    ensures Join(segs + [last]) == if segs == [] then last else Join(segs) + "/" + last
  {
    if |segs| > 1 {
      assert (segs + [last])[1..] == segs[1..] + [last];
      JoinSnoc(segs[1..], last);
    } else if |segs| == 1 {
      assert (segs + [last])[1..] == [last];
    }
  }

  /** The path a router with prefix segments `paths` defines for `path`. */
  function FullPath(paths: seq<string>, path: string): string {
    Join(paths + [StripSlash(path)])
  }

  /** `define(path)`: creates the node for `path` unless it exists. */
  function Defined(nodes: map<string, Node>, path: string): (r: map<string, Node>)
    ensures path in r && r.Keys == nodes.Keys + {path}
    ensures forall k :: k in nodes ==> r[k] == nodes[k]
  {
    if path in nodes then nodes else nodes[path := EmptyNode]
  }

  /** Defining the node for `full` and binding `handler` to its `slot` entry. */
  function Bind(nodes: map<string, Node>, full: string, slot: string, handler: Handler)
    : Result<map<string, Node>, Err>
  {
    var defined := Defined(nodes, full);
    var node := defined[full];
    if slot in node.handlers then Failure(NewError("Error", "already defined"))
    else Success(defined[full := node.(handlers := node.handlers[slot := handler])])
  }

  /** A free slot is filled with the handler; every other node and slot is kept. */
  lemma BindStores(nodes: map<string, Node>, full: string, slot: string, handler: Handler)
    requires full !in nodes || slot !in nodes[full].handlers
    ensures var b := Bind(nodes, full, slot, handler);
      && b.Success?
      && b.value.Keys == nodes.Keys + {full}
      && b.value[full].handlers == (if full in nodes then nodes[full].handlers else map[])[slot := handler]
      && (full in nodes ==> b.value[full].router == nodes[full].router)
      && forall k :: k in nodes && k != full ==> b.value[k] == nodes[k]
  {
  }

  /** Binding an occupied slot throws `already defined` and keeps the original handler. */
  lemma BindConflict(nodes: map<string, Node>, full: string, slot: string, handler: Handler)
    requires full in nodes && slot in nodes[full].handlers
    ensures Bind(nodes, full, slot, handler) == Failure(NewError("Error", "already defined"))
    ensures Defined(nodes, full) == nodes
  {
  }

  /** The second of two bindings of one method on one path fails; the first handler stays. */
  lemma RebindFails(nodes: map<string, Node>, full: string, slot: string, first: Handler, second: Handler)
    requires full !in nodes || slot !in nodes[full].handlers
    ensures var b := Bind(nodes, full, slot, first);
      && b.Success?
      && Bind(b.value, full, slot, second).Failure?
      && Defined(b.value, full)[full].handlers[slot] == first
  {
  }

  /** The routing trie shared by all routers of an application. */
  class Trie {
    var nodes: map<string, Node>

    constructor ()
      ensures nodes == map[]
    {
      nodes := map[];
    }

    /** `define(path)`: returns the node for `path`, creating it when absent. */
    method Define(path: string) returns (node: Node)
      modifies this
      ensures nodes == Defined(old(nodes), path)
      ensures node == nodes[path]
      ensures path in old(nodes) ==> node == old(nodes)[path]
    {
      if path !in nodes {
        nodes := nodes[path := EmptyNode];
      }
      node := nodes[path];
    }
  }

  /** A router: a prefix (a list of segments) over the shared trie. */
  class Router {
    const trie: Trie
    const paths: seq<string>

    /** `new Router(node, paths)`: the prefix is a copy of `paths`. */
    constructor (trie: Trie, paths: seq<string>)
      ensures this.trie == trie && this.paths == paths
    {
      this.trie := trie;
      this.paths := paths;
    }

    /**
     * `subRoute(prefix)`: a router whose prefix is this one's plus the stripped
     * `prefix`; the node for that path is defined and marked with the new router.
     * This router's prefix is unchanged.
     */
    method SubRoute(prefix: string) returns (r: Router)
      modifies trie
      ensures fresh(r) && r.trie == trie && r.paths == paths + [StripSlash(prefix)]
      ensures var full := Join(r.paths); var defined := Defined(old(trie.nodes), full);
        trie.nodes == defined[full := defined[full].(router := Some(r))]
    {
      var stripped := StripSlash(prefix);
      var path := Join(paths + [stripped]);
      var node := trie.Define(path);
      r := new Router(trie, paths + [stripped]);
      trie.nodes := trie.nodes[path := node.(router := Some(r))];
    }

    /**
     * The registrar `router[verb](path, handler)`: defines the node for the full
     * path and fills its upper-cased `verb` slot, throwing when it is occupied.
     */
    method Register(verb: string, path: string, handler: Handler) returns (r: Outcome<Err>)
      requires verb in HttpMethods
      modifies trie
      ensures var full := FullPath(paths, path);
        var b := Bind(old(trie.nodes), full, Upper(verb), handler);
        && (r.Pass? <==> b.Success?)
        && trie.nodes == (if b.Success? then b.value else Defined(old(trie.nodes), full))
      ensures r.Fail? ==> r.error == NewError("Error", "already defined")
    {
      var stripped := StripSlash(path);
      var full := Join(paths + [stripped]);
      var node := trie.Define(full);
      var slot := Upper(verb);
      if slot in node.handlers {
        return Fail(NewError("Error", "already defined"));
      }
      trie.nodes := trie.nodes[full := node.(handlers := node.handlers[slot := handler])];
      r := Pass;
    }
  }

  /** A route registered under a sub-router lands on the prefix segments followed by the path. */
  lemma SubRouterPath(paths: seq<string>, prefix: string, path: string)
    ensures FullPath(paths + [StripSlash(prefix)], path)
      == Join(paths + [StripSlash(prefix), StripSlash(path)])
  {
    assert paths + [StripSlash(prefix)] + [StripSlash(path)] == paths + [StripSlash(prefix), StripSlash(path)];
  }

  /** `createRouter('/route1')` then `get('/abc', …)` binds the trie path `route1/abc`. */
  lemma CreateRouterExample()
    ensures FullPath([StripSlash(StripSlash("/route1"))], "/abc") == "route1/abc"
  {
    assert StripSlash("/abc") == "abc";
    assert StripSlash("/route1") == "route1";
    assert StripSlash("route1") == "route1";
    assert Join(["route1", "abc"]) == "route1" + "/" + Join(["abc"]);
  }
}

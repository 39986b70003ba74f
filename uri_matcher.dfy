/**
 * The platform's `UriMatcher`: a tree whose nodes hold one URI token each
 * (authority first, then path segments), built by `addURI` and searched by `match`.
 */
module UriMatchers {
  import opened Wrappers
  import opened Uris

  /** The code `match` returns when nothing matches. */
  const NO_MATCH: int := -1

  /** How a node compares its token: literally, as `#` (all digits) or as `*` (anything). */
  datatype Kind = Exact | Number | AnyText

  function KindOf(token: string): Kind {
    if token == "#" then Number else if token == "*" then AnyText else Exact
  }

  /**
   * A node of the matcher's tree: the token it was added with, the code stored on it
   * (NO_MATCH unless a registered path ends here) and its children in insertion order.
   * Every node owns a child list from the start, so a leaf simply has an empty one.
   */
  datatype Node = Node(text: string, code: int, children: seq<Node>)

  /** `UriMatcher(code)`: the root node, with no children yet. */
  function NewMatcher(code: int): (root: Node)
    ensures root.code == code && root.children == []
  {
    Node("", code, [])
  }

  /** The first child that was added with exactly `token`, or |children| if there is none. */
  function IndexOfChild(children: seq<Node>, token: string): (i: nat)
    ensures i <= |children|
    ensures i < |children| ==> children[i].text == token
    ensures forall j :: 0 <= j < i ==> children[j].text != token
  {
    if children == [] then 0
    else if children[0].text == token then 0
    else 1 + IndexOfChild(children[1..], token)
  }

  /** Follows `tokens` down the tree by literal token text, as `addURI` does; the code found at the end. */
  function Lookup(node: Node, tokens: seq<string>): Option<int>
    decreases |tokens|
  {
    if tokens == [] then Some(node.code)
    else
      var i := IndexOfChild(node.children, tokens[0]);
      if i < |node.children| then Lookup(node.children[i], tokens[1..]) else None
  }

  /** Walks `tokens` from `node`, reusing the child with the same token or appending a new one, and stores `code` at the end. */
  function InsertPath(node: Node, tokens: seq<string>, code: int): (r: Node)
    ensures r.text == node.text
    ensures tokens != [] ==> r.code == node.code
    decreases |tokens|
  {
    if tokens == [] then node.(code := code)
    else
      var i := IndexOfChild(node.children, tokens[0]);
      if i < |node.children| then
        node.(children := node.children[i := InsertPath(node.children[i], tokens[1..], code)])
      else
        node.(children := node.children + [InsertPath(Node(tokens[0], NO_MATCH, []), tokens[1..], code)])
  }

  /**
   * `addURI(authority, path, code)` with the path already split at '/'.
   * Afterwards the authority followed by the path leads to `code`, and every path
   * registered before and not equal to it keeps its code.
   */
  function AddUri(root: Node, authority: string, path: seq<string>, code: nat): (r: Node)
    ensures Lookup(r, [authority] + path) == Some(code)
    ensures forall other :: other != [authority] + path && Lookup(root, other).Some? ==>
      Lookup(r, other) == Lookup(root, other)
    ensures forall other :: Lookup(root, other).None? && Lookup(r, other).Some? ==>
      |other| <= |path| + 1 && other == ([authority] + path)[..|other|]
      && (other != [authority] + path ==> Lookup(r, other) == Some(NO_MATCH))
  {
    InsertPathThenLookup(root, [authority] + path, code);
    forall other | other != [authority] + path && Lookup(root, other).Some?
      ensures Lookup(InsertPath(root, [authority] + path, code), other) == Lookup(root, other)
    {
      InsertPathKeepsOthers(root, [authority] + path, code, other);
    }
    forall other | Lookup(root, other).None? && Lookup(InsertPath(root, [authority] + path, code), other).Some?
      ensures |other| <= |path| + 1 && other == ([authority] + path)[..|other|]
      ensures other != [authority] + path ==> Lookup(InsertPath(root, [authority] + path, code), other) == Some(NO_MATCH)
    {
      InsertPathAddsOnlyPrefixes(root, [authority] + path, code, other);
    }
    InsertPath(root, [authority] + path, code)
  }

  lemma {:induction false} InsertPathThenLookup(node: Node, tokens: seq<string>, code: int)
    ensures Lookup(InsertPath(node, tokens, code), tokens) == Some(code)
    decreases |tokens|
  {
    if tokens != [] {
      var i := IndexOfChild(node.children, tokens[0]);
      var n' := InsertPath(node, tokens, code);
      if i < |node.children| {
        InsertPathThenLookup(node.children[i], tokens[1..], code);
        IndexOfChildUpdate(node.children, i, n'.children[i], tokens[0]);
      } else {
        InsertPathThenLookup(Node(tokens[0], NO_MATCH, []), tokens[1..], code);
        assert IndexOfChild(n'.children, tokens[0]) == i by {
          IndexOfChildAppend(node.children, n'.children[i], tokens[0]);
        }
      }
    }
  }

  lemma {:induction false} InsertPathKeepsOthers(node: Node, tokens: seq<string>, code: int, other: seq<string>)
    requires other != tokens && Lookup(node, other).Some?
    ensures Lookup(InsertPath(node, tokens, code), other) == Lookup(node, other)
    decreases |tokens|
  {
    var n' := InsertPath(node, tokens, code);
    if tokens == [] {
      assert other != [];
      assert n'.children == node.children;
    } else if other != [] {
      var i := IndexOfChild(node.children, tokens[0]);
      var k := IndexOfChild(node.children, other[0]);
      assert k < |node.children|;
      if i < |node.children| {
        assert n'.children == node.children[i := InsertPath(node.children[i], tokens[1..], code)];
        IndexOfChildUpdate(node.children, i, n'.children[i], other[0]);
        if k == i {
          assert other[0] == tokens[0];
          assert other == [other[0]] + other[1..] && tokens == [tokens[0]] + tokens[1..];
          assert other[1..] != tokens[1..];
          InsertPathKeepsOthers(node.children[i], tokens[1..], code, other[1..]);
        }
      } else {
        IndexOfChildAppend(node.children, n'.children[|node.children|], other[0]);
      }
    }
  }

  /**
   * A path that was absent before an insertion and present after it lies on the inserted path;
   * unless it is the whole inserted path, it leads to NO_MATCH.
   */
  lemma {:induction false} InsertPathAddsOnlyPrefixes(node: Node, tokens: seq<string>, code: int, other: seq<string>)
    requires Lookup(node, other).None? && Lookup(InsertPath(node, tokens, code), other).Some?
    ensures |other| <= |tokens| && other == tokens[..|other|]
    ensures other != tokens ==> Lookup(InsertPath(node, tokens, code), other) == Some(NO_MATCH)
    decreases |tokens|
  {
    var n' := InsertPath(node, tokens, code);
    assert other != [];
    if tokens == [] {
      assert false;
    }
    var i := IndexOfChild(node.children, tokens[0]);
    var k := IndexOfChild(node.children, other[0]);
    assert other == [other[0]] + other[1..] && tokens == [tokens[0]] + tokens[1..];
    if i < |node.children| {
      var sub := node.children[i];
      IndexOfChildUpdate(node.children, i, n'.children[i], other[0]);
      if k != i {
        assert false;
      }
      InsertPathAddsOnlyPrefixes(sub, tokens[1..], code, other[1..]);
    } else {
      var c := n'.children[|node.children|];
      var newChild := Node(tokens[0], NO_MATCH, []);
      IndexOfChildAppend(node.children, c, other[0]);
      if k < |node.children| || c.text != other[0] {
        assert false;
      }
      if other[1..] == [] {
        assert tokens[1..] != [] ==> c.code == NO_MATCH;
      } else {
        InsertPathAddsOnlyPrefixes(newChild, tokens[1..], code, other[1..]);
      }
    }
  }

  /** Appending a child does not change where an already present token is found; an absent token is found in the new child or nowhere. */
  lemma {:induction false} IndexOfChildAppend(children: seq<Node>, c: Node, token: string)
    ensures IndexOfChild(children + [c], token) ==
      if IndexOfChild(children, token) < |children| || c.text == token then IndexOfChild(children, token)
      else |children| + 1
    decreases |children|
  {
    if children != [] {
      assert (children + [c])[1..] == children[1..] + [c];
      if children[0].text != token {
        IndexOfChildAppend(children[1..], c, token);
      }
    }
  }

  /** Replacing a child by one with the same token does not change where any token is found. */
  lemma {:induction false} IndexOfChildUpdate(children: seq<Node>, i: nat, c: Node, token: string)
    requires i < |children| && c.text == children[i].text
    ensures IndexOfChild(children[i := c], token) == IndexOfChild(children, token)
    decreases |children|
  {
    if children != [] && children[0].text != token && i > 0 {
      assert children[i := c][1..] == children[1..][i - 1 := c];
      IndexOfChildUpdate(children[1..], i - 1, c, token);
    }
  }

  /** Whether a child accepts the next token of the URI being matched (`None` is a null authority). */
  predicate Accepts(child: Node, u: Option<string>) {
    match KindOf(child.text)
    case Exact => u == Some(child.text)
    case Number => u.Some? && AllDigits(u.value)
    case AnyText => true
  }

  /** The first child, in insertion order, that accepts `u`. */
  function FirstAccepting(children: seq<Node>, u: Option<string>): (r: Option<Node>)
    ensures r.None? <==> forall j :: 0 <= j < |children| ==> !Accepts(children[j], u)
    ensures r.Some? ==> exists j :: (0 <= j < |children| && children[j] == r.value && Accepts(r.value, u)
      && forall k :: 0 <= k < j ==> !Accepts(children[k], u))
  {
    if children == [] then None
    else if Accepts(children[0], u) then Some(children[0])
    else
      var r := FirstAccepting(children[1..], u);
      assert r.Some? ==> exists j :: (1 <= j < |children| && children[j] == r.value && Accepts(r.value, u)
        && forall k :: 0 <= k < j ==> !Accepts(children[k], u)) by {
        if r.Some? {
          var j :| 0 <= j < |children| - 1 && children[1..][j] == r.value && Accepts(r.value, u)
            && forall k :: 0 <= k < j ==> !Accepts(children[1..][k], u);
          assert forall k :: 1 <= k < j + 1 ==> !Accepts(children[k], u) by {
            forall k | 1 <= k < j + 1 ensures !Accepts(children[k], u) {
              assert children[k] == children[1..][k - 1];
            }
          }
        }
      }
      r
  }

  /** Matches the remaining path segments below `node`: each must be accepted by a child of the node before it. */
  function Walk(node: Node, segments: seq<Segment>): int
    decreases |segments|
  {
    if segments == [] then node.code
    else
      match FirstAccepting(node.children, Some(segments[0]))
      case None => NO_MATCH
      case Some(child) => Walk(child, segments[1..])
  }

  /**
   * `UriMatcher.match(uri)`: a URI with neither authority nor path gets the root's code; otherwise
   * the authority, then each path segment, must be accepted in turn, and the code of the node
   * reached is the answer.
   */
  function Match(root: Node, uri: Uri): int {
    if uri.segments == [] && uri.authority.None? then root.code
    else
      match FirstAccepting(root.children, uri.authority)
      case None => NO_MATCH
      case Some(child) => Walk(child, uri.segments)
  }
}

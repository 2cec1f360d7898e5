/**
  Actor addresses: the one place that mints them, the parser that takes them apart,
  and which ids survive the way through both.
 */
module ActorAddresses {
  import opened Prelude
  import opened Text

  datatype AddressKind = Actor | Callback

  datatype Parsed = Parsed(id: string, kind: AddressKind, node: string)

  const SCHEME := "actor://"
  const RESERVED := "callback/"
  const SEGMENT := "/callback/"
  const GUARDIAN := "guardian"

  /** The characters a dot of a regular expression does not match. */
  predicate LineEnd(c: char) { c == '\n' || c == '\r' || c == '\U{2028}' || c == '\U{2029}' }

  predicate OneLine(s: string) { forall i :: 0 <= i < |s| ==> !LineEnd(s[i]) }

  /** An actor id may not look like a callback's, nor claim the system's own. */
  predicate Mintable(id: string, kind: AddressKind) {
    id != "" && (kind == Actor ==> !(RESERVED <= id) && !Includes(id, SEGMENT) && id != GUARDIAN)
  }

  predicate IsSegment(node: string) { node != "" && '/' !in node }

  function Path(id: string, node: string, kind: AddressKind): string {
    SCHEME + (node + "/" + ((if kind == Callback then RESERVED else "") + id))
  }

  function Mint(id: string, node: Option<string>, kind: AddressKind): Option<string> {
    if !Mintable(id, kind) || (node.Some? && !IsSegment(node.value)) then None
    else Some(Path(id, if node.Some? then node.value else "local", kind))
  }

  function FirstSlash(s: string): (n: nat)
    ensures n <= |s| && '/' !in s[..n] && (n < |s| ==> s[n] == '/')
  {
    if s == "" || s[0] == '/' then 0 else 1 + FirstSlash(s[1..])
  }

  function Parse(address: string): Option<Parsed> {
    if !(SCHEME <= address) then None
    else
      var rest := address[|SCHEME|..];
      var slash := FirstSlash(rest);
      if slash == 0 || slash == |rest| then None
      else
        var node, path := rest[..slash], rest[slash + 1..];
        if RESERVED <= path && path != RESERVED && OneLine(path[|RESERVED|..]) then
          Some(Parsed(path[|RESERVED|..], Callback, node))
        else if path != "" && OneLine(path) then Some(Parsed(path, Actor, node))
        else None
  }

  lemma {:induction false} SlashAfterNode(node: string, path: string)
    requires '/' !in node
    ensures FirstSlash(node + "/" + path) == |node|
  {
    if node != "" {
      SlashAfterNode(node[1..], path);
      assert (node + "/" + path)[1..] == node[1..] + "/" + path;
    }
  }

  lemma PathParts(node: string, path: string)
    requires IsSegment(node)
    ensures var address := SCHEME + (node + "/" + path);
            && SCHEME <= address && address[|SCHEME|..] == node + "/" + path
            && FirstSlash(node + "/" + path) == |node|
            && (node + "/" + path)[..|node|] == node && (node + "/" + path)[|node| + 1..] == path
  {
    SlashAfterNode(node, path);
  }

  /** An address that was minted parses back to what it was minted from exactly when its id is one line. */
  lemma MintedParsesBack(id: string, node: Option<string>, kind: AddressKind)
    requires Mint(id, node, kind).Some?
    ensures Parse(Mint(id, node, kind).value) ==
            if OneLine(id) then Some(Parsed(id, kind, if node.Some? then node.value else "local")) else None
  {
    var at := if node.Some? then node.value else "local";
    var path := (if kind == Callback then RESERVED else "") + id;
    PathParts(at, path);
    if kind == Callback {
      assert path[|RESERVED|..] == id && RESERVED <= path;
      assert !OneLine(id) ==> !OneLine(path) by {
        assert forall i :: 0 <= i < |id| ==> path[|RESERVED| + i] == id[i];
      }
    } else {
      assert path == id;
    }
  }

  /** A text is an address in its own normal form: minting what was parsed gives the text back, or refuses it. */
  lemma ParsedMintsBack(address: string)
    requires Parse(address).Some?
    ensures var p := Parse(address).value;
            var minted := Mint(p.id, Some(p.node), p.kind);
            minted.Some? ==> minted.value == address
  {
    var rest := address[|SCHEME|..];
    var slash := FirstSlash(rest);
    assert address == SCHEME + rest && rest == rest[..slash] + "/" + rest[slash + 1..];
    var path := rest[slash + 1..];
    assert RESERVED <= path ==> path == RESERVED + path[|RESERVED|..];
    assert "" + path == path;
  }
}

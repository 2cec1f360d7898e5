/** Texts as the runtime reads and builds them: white space, decimal digits, colon-separated fields. */
module Text {
  /** The characters JavaScript's `trim` removes. */
  predicate WhiteSpace(c: char) {
    || '\t' <= c <= '\r' || c == ' ' || c == '\U{00a0}' || c == '\U{1680}' || '\U{2000}' <= c <= '\U{200a}'
    || c == '\U{2028}' || c == '\U{2029}' || c == '\U{202f}' || c == '\U{205f}' || c == '\U{3000}' || c == '\U{feff}'
  }

  predicate Blank(s: string) { forall i :: 0 <= i < |s| ==> WhiteSpace(s[i]) }

  function TrimStart(s: string): string {
    if s != [] && WhiteSpace(s[0]) then TrimStart(s[1..]) else s
  }

  function TrimEnd(s: string): string {
    if s != [] && WhiteSpace(s[|s| - 1]) then TrimEnd(s[..|s| - 1]) else s
  }

  function UpperCase(s: string): string {
    if s == [] then []
    else [if 'a' <= s[0] <= 'z' then s[0] - 'a' + 'A' else s[0]] + UpperCase(s[1..])
  }

  /** A text is blank exactly when trimming leaves nothing of it. */
  lemma {:induction false} BlankIsTrimmedAway(s: string)
    ensures Blank(s) <==> TrimEnd(TrimStart(s)) == ""
  {
    TrimStartStops(s);
    TrimEndKeepsFirst(TrimStart(s));
  }

  lemma {:induction false} TrimStartStops(s: string)
    ensures Blank(s) <==> TrimStart(s) == ""
    ensures TrimStart(s) != "" ==> !WhiteSpace(TrimStart(s)[0])
  {
    if s != [] && WhiteSpace(s[0]) {
      TrimStartStops(s[1..]);
      assert Blank(s) <==> Blank(s[1..]);
    }
  }

  lemma {:induction false} TrimEndKeepsFirst(s: string)
    requires s != "" ==> !WhiteSpace(s[0])
    ensures s != "" ==> TrimEnd(s) != ""
  {
    if s != [] && WhiteSpace(s[|s| - 1]) {
      TrimEndKeepsFirst(s[..|s| - 1]);
    }
  }

  function Digit(n: nat): (c: char)
    requires n < 10
    ensures '0' <= c <= '9'
  {
    "0123456789"[n]
  }

  /** The decimal form of a step number. */
  function Digits(n: nat): (s: string)
    ensures s != [] && forall i :: 0 <= i < |s| ==> '0' <= s[i] <= '9'
  {
    if n < 10 then [Digit(n)] else Digits(n / 10) + [Digit(n % 10)]
  }

  lemma {:induction false} DigitsAreInjective(m: nat, n: nat)
    requires Digits(m) == Digits(n)
    ensures m == n
  {
    var a, b := Digits(m), Digits(n);
    assert a[|a| - 1] == b[|b| - 1];
    assert a[..|a| - 1] == b[..|b| - 1];
    if m >= 10 && n >= 10 {
      assert a[..|a| - 1] == Digits(m / 10) && b[..|b| - 1] == Digits(n / 10);
      DigitsAreInjective(m / 10, n / 10);
    }
  }

  lemma FirstColon(field: string, rest: string)
    requires ':' !in field
    ensures var key := field + ":" + rest;
            key[|field|] == ':' && forall i :: 0 <= i < |field| ==> key[i] != ':'
  {
    forall i | 0 <= i < |field| ensures (field + ":" + rest)[i] != ':' {
      assert (field + ":" + rest)[i] == field[i];
    }
  }

  /** A field that holds no colon ends at the first one, so the fields of a key can be told apart. */
  lemma FieldsSplit(a: string, rest: string, b: string, other: string)
    requires ':' !in a && ':' !in b && a + ":" + rest == b + ":" + other
    ensures a == b && rest == other
  {
    var left, right := a + ":" + rest, b + ":" + other;
    FirstColon(a, rest);
    FirstColon(b, other);
    assert a == left[..|a|] && b == right[..|b|];
    assert rest == left[|a| + 1..] && other == right[|b| + 1..];
  }

  predicate Includes(text: string, part: string) {
    part <= text || (text != "" && Includes(text[1..], part))
  }

  predicate OccursAt(text: string, part: string, i: nat) {
    i + |part| <= |text| && text[i..i + |part|] == part
  }

  lemma {:induction false} IncludesMeans(text: string, part: string)
    ensures Includes(text, part) <==> exists i: nat :: i <= |text| && OccursAt(text, part, i)
  {
    if part <= text {
      assert OccursAt(text, part, 0);
    } else if text != "" {
      IncludesMeans(text[1..], part);
      forall i: nat | i <= |text| && OccursAt(text, part, i) ensures Includes(text, part) {
        assert i > 0;
        assert text[1..][i - 1..i - 1 + |part|] == text[i..i + |part|];
        assert OccursAt(text[1..], part, i - 1);
      }
      if Includes(text[1..], part) {
        var i: nat :| i <= |text[1..]| && OccursAt(text[1..], part, i);
        assert text[i + 1..i + 1 + |part|] == text[1..][i..i + |part|];
        assert OccursAt(text, part, i + 1);
      }
    }
  }

  /** What a text includes, every longer text that starts with it includes. */
  lemma IncludesGrows(text: string, part: string, more: string)
    requires Includes(text, part)
    ensures Includes(text + more, part)
  {
    IncludesMeans(text, part);
    IncludesMeans(text + more, part);
    var i: nat :| i <= |text| && OccursAt(text, part, i);
    assert (text + more)[i..i + |part|] == text[i..i + |part|];
    assert OccursAt(text + more, part, i);
  }

  lemma OccursBeforeColon(text: string, part: string, tail: string, i: nat)
    requires ':' !in part && |tail| < |part| && OccursAt(text + ":" + tail, part, i)
    ensures OccursAt(text, part, i)
  {
    var whole := text + ":" + tail;
    forall j | i <= j < i + |part| ensures whole[j] != ':' {
      assert whole[j] == whole[i..i + |part|][j - i] == part[j - i];
    }
    assert whole[|text|] == ':';
    assert i + |part| <= |text|;
    assert whole[..|text|] == text;
    assert text[i..i + |part|] == whole[i..i + |part|];
  }

  /** A part without the colon cannot lie across one, and a part longer than the tail cannot lie in it. */
  lemma IncludesBeforeColon(text: string, part: string, tail: string)
    requires ':' !in part && |tail| < |part| && Includes(text + ":" + tail, part)
    ensures Includes(text, part)
  {
    IncludesMeans(text + ":" + tail, part);
    IncludesMeans(text, part);
    var i: nat :| i <= |text + ":" + tail| && OccursAt(text + ":" + tail, part, i);
    OccursBeforeColon(text, part, tail, i);
  }
}

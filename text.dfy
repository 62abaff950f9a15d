/** The string operations the page applies: `String.prototype.trim` (on the search
    text and the composed "firstName lastName"), `split(" ")`, and the avatar
    initials built from a contact's name. */
module Text {

  /** The characters `trim` removes: ECMAScript WhiteSpace and LineTerminator. */
  predicate IsSpace(c: char) {
    c == ' ' || c == '\t' || c == '\n' || c == '\r' || c == '\U{000B}' || c == '\U{000C}'
    || c == '\U{00A0}' || c == '\U{FEFF}' || c == '\U{1680}'
    || ('\U{2000}' <= c <= '\U{200A}')
    || c == '\U{2028}' || c == '\U{2029}' || c == '\U{202F}' || c == '\U{205F}' || c == '\U{3000}'
  }

  /** Every character of `s` is white space (vacuously true of ""). */
  predicate AllSpace(s: string) {
    forall i :: 0 <= i < |s| ==> IsSpace(s[i])
  }

  /** `s` with its leading white space removed. */
  function TrimStart(s: string): (r: string)
    decreases |s|
  {
    if s != [] && IsSpace(s[0]) then TrimStart(s[1..]) else s
  }

  /** `TrimStart(s)` is a suffix of `s`, what it drops is white space, and it does
      not itself start with white space. */
  lemma {:induction false} TrimStartSpec(s: string)
    ensures var r := TrimStart(s);
      && |r| <= |s| && r == s[|s| - |r|..]
      && AllSpace(s[..|s| - |r|])
      && (r == [] || !IsSpace(r[0]))
    decreases |s|
  {
    if s != [] && IsSpace(s[0]) {
      TrimStartSpec(s[1..]);
      var r := TrimStart(s[1..]);
      assert s[1..][..|s| - 1 - |r|] == s[1..|s| - |r|];
    }
  }

  /** `s` with its trailing white space removed. */
  function TrimEnd(s: string): (r: string)
    decreases |s|
  {
    if s != [] && IsSpace(s[|s| - 1]) then TrimEnd(s[..|s| - 1]) else s
  }

  /** `TrimEnd(s)` is a prefix of `s`, what it drops is white space, and it does
      not itself end with white space. */
  lemma {:induction false} TrimEndSpec(s: string)
    ensures var r := TrimEnd(s);
      && |r| <= |s| && r == s[..|r|]
      && AllSpace(s[|r|..])
      && (r == [] || !IsSpace(r[|r| - 1]))
    decreases |s|
  {
    if s != [] && IsSpace(s[|s| - 1]) {
      TrimEndSpec(s[..|s| - 1]);
      var r := TrimEnd(s[..|s| - 1]);
      assert s[|r|..] == s[..|s| - 1][|r|..] + [s[|s| - 1]];
    }
  }

  /** JavaScript `s.trim()`. */
  function Trim(s: string): (r: string) {
    TrimEnd(TrimStart(s))
  }

  /** Trimming leaves nothing exactly when `s` is all white space, and otherwise
      neither end of the result is white space. */
  lemma TrimSpec(s: string)
    ensures Trim(s) == [] <==> AllSpace(s)
    ensures Trim(s) != [] ==> !IsSpace(Trim(s)[0]) && !IsSpace(Trim(s)[|Trim(s)| - 1])
  {
    var t := TrimStart(s);
    TrimStartSpec(s);
    TrimEndSpec(t);
    if Trim(s) == [] {
      assert AllSpace(t);
      assert s == s[..|s| - |t|] + t;
    } else {
      assert t[0] == Trim(s)[0];
    }
  }

  /** `Trim(s)` is the slice of `s` between its leading and its trailing white space. */
  lemma TrimIsSlice(s: string)
    ensures exists i, j :: 0 <= i <= j <= |s| && Trim(s) == s[i..j]
                          && AllSpace(s[..i]) && AllSpace(s[j..])
  {
    var t := TrimStart(s);
    TrimStartSpec(s);
    var i := |s| - |t|;
    var r := TrimEnd(t);
    TrimEndSpec(t);
    var j := i + |r|;
    assert t == s[i..];
    assert r == s[i..j];
    assert t[|r|..] == s[j..];
  }

  /** Trimming twice is trimming once. */
  lemma TrimIdempotent(s: string)
    ensures Trim(Trim(s)) == Trim(s)
  {
    var r := Trim(s);
    TrimSpec(s);
    if r != [] {
      assert TrimStart(r) == r;
      assert TrimEnd(r) == r;
    }
  }

  /** Index of the first ' ' in `s`, or `|s|` when there is none. */
  function FirstSpace(s: string): (k: nat)
    ensures k <= |s|
    ensures forall i :: 0 <= i < k ==> s[i] != ' '
    ensures k < |s| ==> s[k] == ' '
    decreases |s|
  {
    if s == [] || s[0] == ' ' then 0 else 1 + FirstSpace(s[1..])
  }

  /** JavaScript `s.split(" ")`: the pieces between single spaces, empty pieces
      included, so the result is never empty. */
  function Split(s: string): (parts: seq<string>)
    ensures |parts| >= 1
    decreases |s|
  {
    if s == [] then [[]]
    else
      var rest := Split(s[1..]);
      if s[0] == ' ' then [[]] + rest else [[s[0]] + rest[0]] + rest[1..]
  }

  /** `parts.join(" ")`. */
  function Join(parts: seq<string>): (r: string)
    requires |parts| >= 1
  {
    if |parts| == 1 then parts[0] else parts[0] + [' '] + Join(parts[1..])
  }

  /** Splitting on " " and joining with " " gives back the original text. */
  lemma {:induction false} SplitJoin(s: string)
    ensures Join(Split(s)) == s
    decreases |s|
  {
    if s != [] {
      var rest := Split(s[1..]);
      SplitJoin(s[1..]);
      if s[0] == ' ' {
        assert Split(s) == [[]] + rest;
        assert Split(s)[1..] == rest;
      } else {
        var parts := Split(s);
        if |rest| == 1 {
          assert parts == [[s[0]] + rest[0]];
        } else {
          assert parts[1..] == rest[1..];
          assert Join(parts) == [s[0]] + rest[0] + [' '] + Join(rest[1..]);
        }
      }
    }
  }

  /** No piece of the split contains a space. */
  lemma {:induction false} SplitPiecesHaveNoSpace(s: string)
    ensures forall k :: 0 <= k < |Split(s)| ==> ' ' !in Split(s)[k]
    decreases |s|
  {
    if s != [] {
      SplitPiecesHaveNoSpace(s[1..]);
      var rest := Split(s[1..]);
      if s[0] != ' ' {
        assert Split(s)[0] == [s[0]] + rest[0];
        assert forall k :: 1 <= k < |Split(s)| ==> Split(s)[k] == rest[k];
      } else {
        assert forall k :: 1 <= k < |Split(s)| ==> Split(s)[k] == rest[k - 1];
      }
    }
  }

  /** The first piece is the text up to the first space; when there is a space,
      the second piece is the first piece of what follows it. */
  lemma {:induction false} SplitFront(s: string)
    ensures Split(s)[0] == s[..FirstSpace(s)]
    ensures FirstSpace(s) < |s| ==>
      |Split(s)| >= 2 && Split(s)[1] == Split(s[FirstSpace(s) + 1..])[0]
    ensures FirstSpace(s) == |s| ==> |Split(s)| == 1
    decreases |s|
  {
    if s != [] && s[0] != ' ' {
      SplitFront(s[1..]);
      var k := FirstSpace(s[1..]);
      assert s[..1 + k] == [s[0]] + s[1..][..k];
      if k < |s[1..]| {
        assert s[1..][k + 1..] == s[1 + k + 1..];
      }
    }
  }

  /** The first character of a piece, or "" for an empty piece (`p[0]` is then
      `undefined`, which `join("")` renders as ""). */
  function Initial(p: string): (r: string)
    ensures |r| <= 1
    ensures p != [] ==> r == [p[0]]
    ensures p == [] ==> r == []
  {
    if p == [] then [] else [p[0]]
  }

  /** The avatar initials: `name.split(" ").slice(0, 2).map(p => p[0]).join("")`. */
  function Initials(name: string): (r: string)
    ensures |r| <= 2
  {
    var parts := Split(name);
    Initial(parts[0]) + (if |parts| > 1 then Initial(parts[1]) else [])
  }

  /** The initials, described on the name itself: its first character unless the
      name is empty or starts with a space, followed by the character right after
      its first space unless that is missing or another space. */
  lemma InitialsOfName(name: string)
    ensures var k := FirstSpace(name);
      Initials(name) ==
        (if name != [] && name[0] != ' ' then [name[0]] else [])
        + (if k + 1 < |name| && name[k + 1] != ' ' then [name[k + 1]] else [])
  {
    FirstInitial(name);
    SecondInitial(name);
  }

  /** The first piece's initial is the name's first character unless that is a space. */
  lemma FirstInitial(name: string)
    ensures Initial(Split(name)[0]) == if name != [] && name[0] != ' ' then [name[0]] else []
  {
    SplitFront(name);
    if name != [] && name[0] != ' ' {
      assert Split(name)[0][0] == name[0];
    } else {
      assert FirstSpace(name) == 0;
    }
  }

  /** The second piece, when there is one, starts right after the first space. */
  lemma SecondInitial(name: string)
    ensures var k := FirstSpace(name);
      (if |Split(name)| > 1 then Initial(Split(name)[1]) else [])
      == if k + 1 < |name| && name[k + 1] != ' ' then [name[k + 1]] else []
  {
    var k := FirstSpace(name);
    SplitFront(name);
    if k < |name| {
      var tail := name[k + 1..];
      SplitFront(tail);
      if tail != [] && tail[0] != ' ' {
        assert Split(tail)[0][0] == tail[0];
      } else {
        assert FirstSpace(tail) == 0;
      }
    }
  }

  /** Every initial is a character of the name other than a space. */
  lemma InitialsFromName(name: string)
    ensures forall i :: 0 <= i < |Initials(name)| ==> Initials(name)[i] in name && Initials(name)[i] != ' '
  {
    InitialsOfName(name);
  }
}

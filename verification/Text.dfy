// The string functions of Go's standard library that the configuration rewriters use.
module Text {

  // unicode.IsSpace
  predicate IsSpace(c: char) {
    || c in {'\t', '\n', '\U{0B}', '\U{0C}', '\r', ' ', '\U{85}', '\U{A0}', '\U{1680}'}
    || '\U{2000}' <= c <= '\U{200A}'
    || c in {'\U{2028}', '\U{2029}', '\U{202F}', '\U{205F}', '\U{3000}'}
  }

  function TrimLeft(s: string): string {
    if s != "" && IsSpace(s[0]) then TrimLeft(s[1..]) else s
  }

  function TrimRight(s: string): string {
    if s != "" && IsSpace(s[|s| - 1]) then TrimRight(s[..|s| - 1]) else s
  }

  // strings.TrimSpace
  function Trim(s: string): string {
    TrimRight(TrimLeft(s))
  }

  predicate IsTrimmed(s: string) {
    s == "" || (!IsSpace(s[0]) && !IsSpace(s[|s| - 1]))
  }

  lemma {:induction false} TrimLeftStarts(s: string)
    ensures var r := TrimLeft(s); r == "" || !IsSpace(r[0])
  {
    if s != "" && IsSpace(s[0]) {
      TrimLeftStarts(s[1..]);
    }
  }

  lemma {:induction false} TrimRightEnds(s: string)
    ensures var r := TrimRight(s); r <= s && (r == "" || !IsSpace(r[|r| - 1]))
  {
    if s != "" && IsSpace(s[|s| - 1]) {
      TrimRightEnds(s[..|s| - 1]);
    }
  }

  // Trimming leaves nothing to trim, and leaves trimmed strings alone.
  lemma TrimTrims(s: string)
    ensures IsTrimmed(Trim(s)) && (IsTrimmed(s) ==> Trim(s) == s)
  {
    TrimLeftStarts(s);
    TrimRightEnds(TrimLeft(s));
  }

  lemma {:induction false} TrimLeftDropsSpace(s: string)
    ensures var n := |s| - |TrimLeft(s)|; n >= 0 && TrimLeft(s) == s[n..] && forall i :: 0 <= i < n ==> IsSpace(s[i])
  {
    if s != "" && IsSpace(s[0]) {
      TrimLeftDropsSpace(s[1..]);
      var n := |s[1..]| - |TrimLeft(s[1..])|;
      assert forall i :: 0 < i < n + 1 ==> s[i] == s[1..][i - 1];
    }
  }

  lemma {:induction false} TrimRightDropsSpace(s: string)
    ensures var n := |TrimRight(s)|; n <= |s| && TrimRight(s) == s[..n] && forall i :: n <= i < |s| ==> IsSpace(s[i])
  {
    if s != "" && IsSpace(s[|s| - 1]) {
      TrimRightDropsSpace(s[..|s| - 1]);
    }
  }

  // Trimming drops space at both ends and nothing else.
  lemma TrimDropsSpace(s: string)
    ensures exists i, j :: 0 <= i <= j <= |s| && Trim(s) == s[i..j] && forall k :: 0 <= k < |s| && !(i <= k < j) ==> IsSpace(s[k])
  {
    TrimLeftDropsSpace(s);
    TrimRightDropsSpace(TrimLeft(s));
    var i := |s| - |TrimLeft(s)|;
    var j := i + |Trim(s)|;
    assert Trim(s) == s[i..j];
    forall k | 0 <= k < |s| && !(i <= k < j)
      ensures IsSpace(s[k])
    {
      if k >= j {
        assert s[k] == TrimLeft(s)[k - i];
      }
    }
  }

  // strings.HasPrefix
  predicate HasPrefix(s: string, prefix: string) {
    prefix <= s
  }

  // Letters that strings.EqualFold does not tell apart. Beyond the two cases of ASCII,
  // the long s folds to s and the Kelvin sign to k.
  function Fold(c: char): char {
    if 'A' <= c <= 'Z' then (c as int - 'A' as int + 'a' as int) as char
    else if c == '\U{17F}' then 's'
    else if c == '\U{212A}' then 'k'
    else c
  }

  // strings.EqualFold against a pattern of ASCII characters
  predicate EqualFold(s: string, ascii: string) {
    |s| == |ascii| && forall i :: 0 <= i < |s| ==> Fold(s[i]) == Fold(ascii[i])
  }

  // Over ASCII it ignores case, and nothing else.
  lemma FoldIgnoresCase(s: string, t: string)
    requires (forall c :: c in s ==> c as int < 128) && (forall c :: c in t ==> c as int < 128)
    ensures EqualFold(s, t) <==> |s| == |t| && forall i :: 0 <= i < |s| ==>
              || s[i] == t[i]
              || ('A' <= s[i] <= 'Z' && t[i] as int == s[i] as int + 32)
              || ('A' <= t[i] <= 'Z' && s[i] as int == t[i] as int + 32)
  {
    if |s| == |t| {
      forall i | 0 <= i < |s|
        ensures Fold(s[i]) == Fold(t[i]) <==>
                  || s[i] == t[i]
                  || ('A' <= s[i] <= 'Z' && t[i] as int == s[i] as int + 32)
                  || ('A' <= t[i] <= 'Z' && s[i] as int == t[i] as int + 32)
      {
        assert s[i] in s && t[i] in t;
      }
    }
  }

  // The first occurrences, in order.
  function Uniq(s: seq<string>): (r: seq<string>)
    ensures forall x :: x in r <==> x in s
  {
    if s == [] then []
    else
      var last, r := s[|s| - 1], Uniq(s[..|s| - 1]);
      assert s == s[..|s| - 1] + [last];
      if last in r then r else r + [last]
  }

  lemma UniqStep(s: seq<string>, x: string)
    ensures Uniq(s + [x]) == if x in s then Uniq(s) else Uniq(s) + [x]
  {
    assert (s + [x])[..|s|] == s;
  }

  predicate NoRepeats(s: seq<string>) {
    forall i, j :: 0 <= i < j < |s| ==> s[i] != s[j]
  }

  lemma {:induction false} UniqHasNoRepeats(s: seq<string>)
    ensures NoRepeats(Uniq(s))
  {
    if s != [] {
      UniqHasNoRepeats(s[..|s| - 1]);
    }
  }

  lemma {:induction false} UniqKeepsUniq(s: seq<string>)
    requires NoRepeats(s)
    ensures Uniq(s) == s
  {
    if s != [] {
      UniqKeepsUniq(s[..|s| - 1]);
      assert s == s[..|s| - 1] + [s[|s| - 1]];
    }
  }

  // What follows is appended as far as it is new.
  lemma {:induction false} UniqAppend(a: seq<string>, b: seq<string>)
    ensures Uniq(a + b) == Uniq(Uniq(a) + b)
  {
    if b == [] {
      UniqHasNoRepeats(a);
      UniqKeepsUniq(Uniq(a));
      assert a + b == a && Uniq(a) + b == Uniq(a);
    } else {
      var init := b[..|b| - 1];
      UniqAppend(a, init);
      assert (a + b)[..|a + b| - 1] == a + init;
      assert (Uniq(a) + b)[..|Uniq(a) + b| - 1] == Uniq(a) + init;
    }
  }

  lemma {:induction false} UniqIgnoresRepeatedTail(a: seq<string>, b: seq<string>)
    requires forall x :: x in b ==> x in a
    ensures Uniq(a + b) == Uniq(a)
  {
    if b == [] {
      assert a + b == a;
    } else {
      var init := b[..|b| - 1];
      assert b == init + [b[|b| - 1]];
      UniqIgnoresRepeatedTail(a, init);
      assert (a + b)[..|a + b| - 1] == a + init;
    }
  }

  lemma {:induction false} UniqInner(a: seq<string>, b: seq<string>)
    ensures Uniq(a + Uniq(b)) == Uniq(a + b)
  {
    if b != [] {
      var init, last := b[..|b| - 1], b[|b| - 1];
      UniqInner(a, init);
      assert (a + b)[..|a + b| - 1] == a + init;
      if last in Uniq(init) {
        assert last in a + init;
      } else {
        assert (a + Uniq(b))[..|a + Uniq(b)| - 1] == a + Uniq(init);
      }
    }
  }
}

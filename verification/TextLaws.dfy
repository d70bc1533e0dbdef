/** What the shared text functions mean: Go's strings.TrimSpace, and the length of a text in UTF-8. */
module TextLaws {
  import opened Prelude

  predicate Blank(s: string) {
    forall i :: 0 <= i < |s| ==> IsSpace(s[i])
  }

  /** t is what stands in s between white space, and neither begins nor ends with white space. */
  ghost predicate Trims(s: string, t: string) {
    && (t != "" ==> !IsSpace(t[0]) && !IsSpace(t[|t| - 1]))
    && exists a, b :: Blank(a) && Blank(b) && s == a + t + b
  }

  lemma {:induction false} TrimLeftDivides(s: string) returns (a: string)
    ensures Blank(a) && s == a + TrimLeft(s) && (TrimLeft(s) != "" ==> !IsSpace(TrimLeft(s)[0]))
  {
    if s != "" && IsSpace(s[0]) {
      var rest := TrimLeftDivides(s[1..]);
      a := [s[0]] + rest;
      assert s == [s[0]] + s[1..];
    } else {
      a := "";
    }
  }

  lemma {:induction false} TrimRightDivides(s: string) returns (b: string)
    ensures Blank(b) && s == TrimRight(s) + b && (TrimRight(s) != "" ==> !IsSpace(TrimRight(s)[|TrimRight(s)| - 1]))
  {
    if s != "" && IsSpace(s[|s| - 1]) {
      var rest := TrimRightDivides(s[..|s| - 1]);
      b := rest + [s[|s| - 1]];
      assert s == s[..|s| - 1] + [s[|s| - 1]];
    } else {
      b := "";
    }
  }

  lemma TrimmedBetween(s: string, left: string, a: string, t: string, b: string)
    requires s == a + left && left == t + b && Blank(a) && Blank(b)
    requires left != "" ==> !IsSpace(left[0])
    requires t != "" ==> !IsSpace(t[|t| - 1])
    ensures Trims(s, t)
  {
    hide IsSpace, Blank;
    assert t != "" ==> t[0] == left[0];
    assert s == a + t + b;
  }

  lemma TrimSpaceTrims(s: string)
    ensures Trims(s, TrimSpace(s))
  {
    hide TrimLeft, TrimRight, IsSpace, Blank, Trims;
    var a := TrimLeftDivides(s);
    var b := TrimRightDivides(TrimLeft(s));
    TrimmedBetween(s, TrimLeft(s), a, TrimSpace(s), b);
  }

  lemma NoLaterStart(a: string, t: string, b: string, a': string, t': string, b': string)
    requires Blank(a') && Blank(b') && t != "" && !IsSpace(t[0])
    requires a + t + b == a' + t' + b'
    ensures t' != "" && |a'| <= |a|
  {
    var s := a + t + b;
    assert !IsSpace(s[|a|]) by { assert s[|a|] == t[0]; }
    assert forall i :: 0 <= i < |a'| ==> IsSpace(s[i]) by {
      assert forall i :: 0 <= i < |a'| ==> s[i] == a'[i];
    }
    assert forall i :: |a' + t'| <= i < |s| ==> IsSpace(s[i]) by {
      assert forall i :: |a' + t'| <= i < |s| ==> s[i] == b'[i - |a' + t'|];
    }
  }

  lemma NoEarlierEnd(a: string, t: string, b: string, a': string, t': string, b': string)
    requires Blank(b') && t != "" && !IsSpace(t[|t| - 1]) && a + t + b == a' + t' + b'
    ensures |b'| <= |b|
  {
    var s := a + t + b;
    assert !IsSpace(s[|s| - |b| - 1]) by { assert s[|s| - |b| - 1] == t[|t| - 1]; }
    assert forall i :: |a' + t'| <= i < |s| ==> IsSpace(s[i]) by {
      assert forall i :: |a' + t'| <= i < |s| ==> s[i] == b'[i - |a' + t'|];
    }
  }

  /** Trimming is determined by its meaning: exactly one text stands between the white space. */
  lemma TrimSpaceIff(s: string, t: string)
    ensures t == TrimSpace(s) <==> Trims(s, t)
  {
    hide TrimSpace, IsSpace;
    TrimSpaceTrims(s);
    if Trims(s, t) {
      var u := TrimSpace(s);
      var a, b :| Blank(a) && Blank(b) && s == a + t + b;
      var a', b' :| Blank(a') && Blank(b') && s == a' + u + b';
      if t != "" {
        NoLaterStart(a, t, b, a', u, b');
        NoEarlierEnd(a, t, b, a', u, b');
      }
      if u != "" {
        NoLaterStart(a', u, b', a, t, b);
        NoEarlierEnd(a', u, b', a, t, b);
      }
      if u != "" {
        assert t == s[|a|..|s| - |b|] && u == s[|a'|..|s| - |b'|];
      }
    }
  }

  /** How many code points UTF-8 can write in n bytes (RFC 3629, section 3). */
  function Capacity(n: nat): nat
    requires 1 <= n <= 4
  {
    match n
    case 1 => 0x80
    case 2 => 0x20 * 0x40
    case 3 => 0x10 * 0x40 * 0x40
    case 4 => 0x8 * 0x40 * 0x40 * 0x40
  }

  /** The byte length adds up over the characters, each taking the fewest bytes that can hold it. */
  lemma {:induction false} ByteLengthAdds(a: string, b: string)
    ensures ByteLength(a + b) == ByteLength(a) + ByteLength(b)
  {
    if a == "" {
      assert a + b == b;
    } else {
      assert (a + b)[1..] == a[1..] + b;
      ByteLengthAdds(a[1..], b);
    }
  }

  lemma ShortestEncoding(c: char, n: nat)
    requires 1 <= n <= 4
    ensures 1 <= ByteLength([c]) <= 4
    ensures ByteLength([c]) <= n <==> c as int < Capacity(n)
  {
    assert [c][1..] == "";
  }
}

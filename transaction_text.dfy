/** The cleanup the widget applies to a transaction's text before listing
    it: lower-case, remove every match of / nok | kurs|\d|\*|:|\./g, trim,
    and upper-case the first character. */
module TransactionText {
  import opened JsText

  /** The one-character alternatives of the pattern. `\d` is ASCII only. */
  predicate IsNoise(c: char)
  {
    ('0' <= c <= '9') || c == '*' || c == ':' || c == '.'
  }

  /** Length of the pattern's match at the start of `s`, 0 when it does not
      match there. The two five-character alternatives both begin with a
      space, so they never compete with the one-character ones. */
  function MatchAt(s: string): (n: nat)
    ensures n == 0 || n == 1 || n == 5
    ensures n <= |s|
    ensures n == 1 <==> s != [] && IsNoise(s[0])
  {
    if |s| >= 5 && s[0] == ' ' && ((s[1] == 'n' && s[2] == 'o' && s[3] == 'k' && s[4] == ' ')
                                   || (s[1] == 'k' && s[2] == 'u' && s[3] == 'r' && s[4] == 's')) then 5
    else if s != [] && IsNoise(s[0]) then 1
    else 0
  }

  /** `s.replace(/ nok | kurs|\d|\*|:|\./g, '')`: scan left to right,
      drop each match and resume after it. Text that comes together only
      after a removal is not scanned again. */
  function StripNoise(s: string): string
    decreases |s|
  {
    if s == [] then []
    else if MatchAt(s) > 0 then StripNoise(s[MatchAt(s)..])
    else [s[0]] + StripNoise(s[1..])
  }

  /** No space among the last four characters: a five-character match that
      starts in the text ends inside it. */
  predicate NoSpaceNearEnd(a: string)
  {
    forall k :: 0 <= k < |a| && |a| - 4 <= k ==> a[k] != ' '
  }

  /** What follows such a text does not change the match at its start. */
  lemma MatchAtAppend(a: string, b: string)
    requires a != [] && NoSpaceNearEnd(a)
    ensures MatchAt(a + b) == MatchAt(a)
  {
    var s := a + b;
    if |a| < 5 {
      assert a[0] != ' ';
    } else {
      assert s[..5] == a[..5];
      assert s[0] == a[0] && s[1] == a[1] && s[2] == a[2] && s[3] == a[3] && s[4] == a[4];
    }
  }

  /** Dropping a prefix of the first part of a concatenation. */
  lemma DropAppend(a: string, b: string, m: nat)
    requires m <= |a|
    ensures (a + b)[m..] == a[m..] + b
  {
  }

  /** Dropping characters from the front keeps the last four space-free. */
  lemma NoSpaceNearEndDrop(a: string, m: nat)
    requires m <= |a| && NoSpaceNearEnd(a)
    ensures NoSpaceNearEnd(a[m..])
  {
    forall k | 0 <= k < |a[m..]| && |a[m..]| - 4 <= k ensures a[m..][k] != ' ' {
      assert a[m..][k] == a[k + m];
    }
  }

  /** The scan splits at a boundary no match straddles: the replace on the
      whole is the replace on each part. */
  lemma {:induction false} StripNoiseAppend(a: string, b: string)
    requires NoSpaceNearEnd(a)
    ensures StripNoise(a + b) == StripNoise(a) + StripNoise(b)
    decreases |a|
  {
    if a == [] {
      assert a + b == b;
    } else {
      MatchAtAppend(a, b);
      var m := MatchAt(a);
      if m > 0 {
        DropAppend(a, b, m);
        NoSpaceNearEndDrop(a, m);
        StripNoiseAppend(a[m..], b);
      } else {
        DropAppend(a, b, 1);
        NoSpaceNearEndDrop(a, 1);
        StripNoiseAppend(a[1..], b);
        assert (a + b)[0] == a[0];
      }
    }
  }

  /** What the replace leaves contains none of the one-character
      alternatives, and only characters of the input. */
  lemma {:induction false} StripNoiseRemovesNoise(s: string)
    ensures forall k :: 0 <= k < |StripNoise(s)| ==> !IsNoise(StripNoise(s)[k])
    ensures multiset(StripNoise(s)) <= multiset(s)
    decreases |s|
  {
    if s == [] {
    } else if MatchAt(s) > 0 {
      var m := MatchAt(s);
      StripNoiseRemovesNoise(s[m..]);
      assert StripNoise(s) == StripNoise(s[m..]);
      assert s == s[..m] + s[m..];
      assert multiset(s) == multiset(s[..m]) + multiset(s[m..]);
    } else {
      var r := StripNoise(s[1..]);
      StripNoiseRemovesNoise(s[1..]);
      assert StripNoise(s) == [s[0]] + r;
      assert !IsNoise(s[0]);
      assert s == [s[0]] + s[1..];
      assert multiset(s) == multiset{s[0]} + multiset(s[1..]);
    }
  }

  /** The replace removes something exactly when the pattern matches at some
      position of the text. */
  lemma {:induction false} StripNoiseKeepsIff(s: string)
    ensures |StripNoise(s)| <= |s|
    ensures |StripNoise(s)| == |s| <==> forall k :: 0 <= k < |s| ==> MatchAt(s[k..]) == 0
    ensures (forall k :: 0 <= k < |s| ==> MatchAt(s[k..]) == 0) ==> StripNoise(s) == s
    decreases |s|
  {
    if s == [] {
    } else if MatchAt(s) > 0 {
      StripNoiseKeepsIff(s[MatchAt(s)..]);
      assert s[0..] == s;
    } else {
      var t := s[1..];
      StripNoiseKeepsIff(t);
      forall k | 0 <= k < |t| ensures t[k..] == s[k + 1..] {
      }
      if forall k :: 0 <= k < |s| ==> MatchAt(s[k..]) == 0 {
        assert forall k :: 0 <= k < |t| ==> MatchAt(t[k..]) == 0 by {
          forall k | 0 <= k < |t| ensures MatchAt(t[k..]) == 0 {
            assert MatchAt(s[k + 1..]) == 0;
          }
        }
        assert s == [s[0]] + t;
      }
      if |StripNoise(s)| == |s| {
        forall k | 0 <= k < |s| ensures MatchAt(s[k..]) == 0 {
          if k == 0 {
            assert s[k..] == s;
          } else {
            assert s[k..] == t[k - 1..];
          }
        }
      }
    }
  }

  /** Upper-casing a character yields no pattern character unless it was
      one already. */
  lemma UpperCharAddsNoNoise(c: char)
    ensures forall k :: 0 <= k < |UpperChar(c)| ==> !IsNoise(UpperChar(c)[k]) || UpperChar(c)[k] == c
  {
  }

  /** Capitalising the first character brings in no pattern character that
      was not there. */
  lemma CapitalizeKeepsClean(s: string)
    requires forall k :: 0 <= k < |s| ==> !IsNoise(s[k])
    ensures forall k :: 0 <= k < |CapitalizeFirst(s)| ==> !IsNoise(CapitalizeFirst(s)[k])
  {
    if s != [] {
      var u := UpperChar(s[0]);
      UpperCharAddsNoNoise(s[0]);
      var r := CapitalizeFirst(s);
      forall k | 0 <= k < |r| ensures !IsNoise(r[k]) {
        if k < |u| {
          assert r[k] == u[k];
        } else {
          assert r[k] == s[k - |u| + 1];
        }
      }
    }
  }

  /** Trimming a text free of pattern characters leaves it free of them. */
  lemma TrimKeepsClean(s: string)
    requires forall k :: 0 <= k < |s| ==> !IsNoise(s[k])
    ensures forall k :: 0 <= k < |Trim(s)| ==> !IsNoise(Trim(s)[k])
  {
    var r := Trim(s);
    TrimIsSlice(s);
    forall k | 0 <= k < |r| ensures !IsNoise(r[k]) {
      assert r[k] == s[|s| - |TrimStart(s)| + k];
    }
  }

  /** The transaction-text cleanup of the widget: lower-case, strip the
      pattern, trim, capitalise the first character. */
  function CleanText(text: string): string
  {
    CapitalizeFirst(Trim(StripNoise(ToLowerCase(text))))
  }

  /** The cleaned text holds no ASCII digit, '*', ':' or '.'. */
  lemma CleanTextHasNoNoise(text: string)
    ensures forall k :: 0 <= k < |CleanText(text)| ==> !IsNoise(CleanText(text)[k])
  {
    var stripped := StripNoise(ToLowerCase(text));
    StripNoiseRemovesNoise(ToLowerCase(text));
    TrimKeepsClean(stripped);
    CapitalizeKeepsClean(Trim(stripped));
  }
}

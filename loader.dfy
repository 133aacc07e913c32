/**
 * The cleaning step of the fragment loader `extract_text`
 * (ticket_parser.py:18): every recognised text is stripped of surrounding
 * whitespace and the ones that become empty are dropped, in order.
 * Reading the JSON file is not modelled: the list under "rec_texts" is the
 * input, and a missing key or a read failure stands for the empty list.
 */
module Loader {
  import opened Text

  /** `s.lstrip()`: drop the leading whitespace. */
  function StripLeft(s: string): (r: string)
    ensures |r| <= |s| && r == s[|s| - |r|..]
    ensures forall i :: 0 <= i < |s| - |r| ==> IsSpace(s[i])
    ensures r == [] || !IsSpace(r[0])
  {
    if |s| > 0 && IsSpace(s[0]) then StripLeft(s[1..]) else s
  }

  /** `s.rstrip()`: drop the trailing whitespace. */
  function StripRight(s: string): (r: string)
    ensures |r| <= |s| && r == s[..|r|]
    ensures forall i :: |r| <= i < |s| ==> IsSpace(s[i])
    ensures r == [] || !IsSpace(r[|r| - 1])
  {
    if |s| > 0 && IsSpace(s[|s| - 1]) then StripRight(s[..|s| - 1]) else s
  }

  /** Python's `s.strip()`. */
  function Strip(s: string): string
  {
    StripRight(StripLeft(s))
  }

  /** The stripped text is the slice s[a..b] with only whitespace cut away, and it neither starts nor ends with whitespace. */
  lemma StripIsTrimmedSlice(s: string) returns (a: nat, b: nat)
    ensures a <= b <= |s| && Strip(s) == s[a..b]
    ensures forall i :: 0 <= i < a ==> IsSpace(s[i])
    ensures forall i :: b <= i < |s| ==> IsSpace(s[i])
    ensures a < b ==> !IsSpace(s[a]) && !IsSpace(s[b - 1])
  {
    var l := StripLeft(s);
    var r := StripRight(l);
    a := |s| - |l|;
    b := a + |r|;
    assert r == s[a..b] by {
      assert l == s[a..];
      assert s[a..][..|r|] == s[a..b];
    }
    forall i | b <= i < |s|
      ensures IsSpace(s[i])
    {
      assert s[i] == l[i - a];
    }
    if a < b {
      assert s[a] == l[0];
    }
  }

  /** A text is left unchanged by stripping exactly when it has no whitespace at either end. */
  lemma StripFixed(s: string)
    ensures Strip(s) == s <==> s == [] || (!IsSpace(s[0]) && !IsSpace(s[|s| - 1]))
  {
    var a, b := StripIsTrimmedSlice(s);
    if Strip(s) == s && s != [] {
      assert a == 0 && b == |s|;
    }
    if s != [] && !IsSpace(s[0]) && !IsSpace(s[|s| - 1]) {
      assert a == 0 && b == |s|;
      assert s[0..|s|] == s;
    }
  }

  /** `strip` is idempotent. */
  lemma StripIdempotent(s: string)
    ensures Strip(Strip(s)) == Strip(s)
  {
    var a, b := StripIsTrimmedSlice(s);
    StripFixed(Strip(s));
  }

  /** A text strips to nothing exactly when it is all whitespace: the `if txt.strip()` filter. */
  lemma StripEmpty(s: string)
    ensures Strip(s) == [] <==> forall i :: 0 <= i < |s| ==> IsSpace(s[i])
  {
    var a, b := StripIsTrimmedSlice(s);
    if Strip(s) != [] {
      assert !IsSpace(s[a]);
    }
  }

  /** `[txt.strip() for txt in texts if txt.strip()]` (ticket_parser.py:18). */
  function CleanTexts(texts: seq<string>): (r: seq<string>)
    ensures |r| <= |texts|
  {
    if texts == [] then []
    else
      var t := Strip(texts[0]);
      (if t != [] then [t] else []) + CleanTexts(texts[1..])
  }

  /** Every cleaned fragment is non-empty and already stripped. */
  lemma {:induction false} CleanTextsStripped(texts: seq<string>)
    ensures forall i :: 0 <= i < |CleanTexts(texts)| ==>
      CleanTexts(texts)[i] != [] && Strip(CleanTexts(texts)[i]) == CleanTexts(texts)[i]
  {
    if texts != [] {
      CleanTextsStripped(texts[1..]);
      StripIdempotent(texts[0]);
    }
  }

  /** Cleaning works fragment by fragment, so it keeps the order of the input. */
  lemma {:induction false} CleanTextsAppend(a: seq<string>, b: seq<string>)
    ensures CleanTexts(a + b) == CleanTexts(a) + CleanTexts(b)
  {
    if a == [] {
      assert a + b == b;
    } else {
      var t := Strip(a[0]);
      var head := if t != [] then [t] else [];
      assert (a + b)[0] == a[0];
      assert (a + b)[1..] == a[1..] + b;
      CleanTextsAppend(a[1..], b);
      calc {
        CleanTexts(a + b);
        head + CleanTexts(a[1..] + b);
        head + (CleanTexts(a[1..]) + CleanTexts(b));
        (head + CleanTexts(a[1..])) + CleanTexts(b);
        CleanTexts(a) + CleanTexts(b);
      }
    }
  }

  /** The cleaned fragments are exactly the non-empty stripped inputs. */
  lemma {:induction false} CleanTextsMembers(texts: seq<string>, t: string)
    ensures t in CleanTexts(texts) <==> t != [] && exists u :: u in texts && Strip(u) == t
  {
    if texts != [] {
      CleanTextsMembers(texts[1..], t);
      if t != [] && Strip(texts[0]) == t {
        assert t in CleanTexts(texts);
      }
      forall u | u in texts[1..] ensures u in texts { }
      if exists u :: u in texts && Strip(u) == t {
        var u :| u in texts && Strip(u) == t;
        if u != texts[0] {
          assert u in texts[1..];
        }
      }
    }
  }

  /** A list that is already clean is left unchanged, so cleaning is idempotent. */
  lemma {:induction false} CleanTextsIdempotent(texts: seq<string>)
    ensures CleanTexts(CleanTexts(texts)) == CleanTexts(texts)
  {
    CleanTextsStripped(texts);
    CleanOfClean(CleanTexts(texts));
  }

  lemma {:induction false} CleanOfClean(texts: seq<string>)
    requires forall i :: 0 <= i < |texts| ==> texts[i] != [] && Strip(texts[i]) == texts[i]
    ensures CleanTexts(texts) == texts
  {
    if texts != [] {
      CleanOfClean(texts[1..]);
    }
  }
}

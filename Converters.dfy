/**
 * The URL path converter `IntListConverter` (api/converters.py): a path
 * segment such as "3,14,15" becomes the list [3, 14, 15] and back.
 *
 * The converter is only consulted on text that matches its pattern
 * `\d+(?:,\d+)*`; `MatchesPattern` states that pattern character by
 * character, and `PatternSegments` proves it equivalent to "every
 * comma-separated segment is a non-empty digit string".
 */
module Converters {
  import opened Basics

  /** The converter's pattern `\d+(?:,\d+)*`: starts with a digit, and
      every character is a digit or a comma that is followed by a digit. */
  predicate MatchesPattern(s: string)
  {
    |s| > 0 && IsDigit(s[0]) && CharsFit(s)
  }

  predicate CharsFit(s: string)
  {
    forall i :: 0 <= i < |s| ==> FitsAt(s, i)
  }

  predicate FitsAt(s: string, i: nat)
    requires i < |s|
  {
    IsDigit(s[i]) || (s[i] == ',' && i + 1 < |s| && IsDigit(s[i + 1]))
  }

  predicate AllDigits(s: string)
  {
    forall i :: 0 <= i < |s| ==> IsDigit(s[i])
  }

  function CommaCount(s: string): nat
  {
    if s == [] then 0 else (if s[0] == ',' then 1 else 0) + CommaCount(s[1..])
  }

  /** Python's `s.split(",")`: the text between consecutive commas, empty
      pieces included; there is always one more piece than commas. */
  function Split(s: string): (r: seq<string>)
    ensures |r| == CommaCount(s) + 1
    ensures forall k :: 0 <= k < |r| ==> ',' !in r[k]
  {
    if s == [] then [""]
    else
      var rest := Split(s[1..]);
      if s[0] == ',' then [""] + rest
      else [[s[0]] + rest[0]] + rest[1..]
  }

  /** Python's `",".join(segs)`. */
  function Join(segs: seq<string>): string
  {
    if |segs| == 0 then ""
    else if |segs| == 1 then segs[0]
    else segs[0] + "," + Join(segs[1..])
  }

  lemma {:induction false} JoinSplit(s: string)
    ensures Join(Split(s)) == s
  {
    if s != [] {
      var rest := Split(s[1..]);
      JoinSplit(s[1..]);
      if s[0] == ',' {
        assert Split(s)[1..] == rest;
      } else {
        var r := Split(s);
        assert r[0] == [s[0]] + rest[0];
        if |rest| > 1 {
          assert r[1..] == rest[1..];
          assert Join(rest) == rest[0] + "," + Join(rest[1..]);
        }
      }
    }
  }

  /** Splitting text whose first piece `a` holds no comma. */
  lemma {:induction false} SplitPrefix(a: string, t: string)
    requires ',' !in a
    ensures Split(a + t) == [a + Split(t)[0]] + Split(t)[1..]
  {
    if a != [] {
      assert (a + t)[1..] == a[1..] + t;
      SplitPrefix(a[1..], t);
      assert [a[0]] + (a[1..] + Split(t)[0]) == a + Split(t)[0];
    } else {
      assert a + t == t;
      assert a + Split(t)[0] == Split(t)[0];
      assert Split(t) == [Split(t)[0]] + Split(t)[1..];
    }
  }

  lemma {:induction false} SplitJoin(segs: seq<string>)
    requires |segs| > 0
    requires forall k :: 0 <= k < |segs| ==> ',' !in segs[k]
    ensures Split(Join(segs)) == segs
  {
    if |segs| == 1 {
      SplitPrefix(segs[0], "");
      assert segs[0] + "" == segs[0];
    } else {
      var j := Join(segs[1..]);
      SplitJoin(segs[1..]);
      assert Join(segs) == segs[0] + ("," + j);
      SplitPrefix(segs[0], "," + j);
      assert ("," + j)[1..] == j;
      assert Split("," + j) == [""] + segs[1..];
      assert segs[0] + "" == segs[0];
    }
  }

  lemma CharsFitCons(s: string)
    requires s != []
    ensures CharsFit(s) <==> FitsAt(s, 0) && CharsFit(s[1..])
  {
    var t := s[1..];
    forall i | 1 <= i < |s| ensures FitsAt(s, i) <==> FitsAt(t, i - 1) {
      assert s[i] == t[i - 1];
      if i + 1 < |s| {
        assert s[i + 1] == t[i];
      }
    }
    if FitsAt(s, 0) && CharsFit(t) {
      forall i | 0 <= i < |s| ensures FitsAt(s, i) {
        if i > 0 {
          assert FitsAt(t, i - 1);
        }
      }
    }
    if CharsFit(s) {
      forall i | 0 <= i < |t| ensures FitsAt(t, i) {
        assert FitsAt(s, i + 1);
      }
    }
  }

  /** Every piece after the first is a non-empty digit string, and the first
      is a (possibly empty) digit string. */
  predicate TailSegmentsDecimal(r: seq<string>)
  {
    |r| > 0 && AllDigits(r[0]) && forall k :: 1 <= k < |r| ==> IsDecimal(r[k])
  }

  lemma {:induction false} CharsFitSegments(s: string)
    ensures CharsFit(s) <==> TailSegmentsDecimal(Split(s))
  {
    if s != [] {
      var rest := Split(s[1..]);
      var r := Split(s);
      CharsFitSegments(s[1..]);
      CharsFitCons(s);
      if s[0] == ',' {
        assert r == [""] + rest;
        if CharsFit(s) {
          assert IsDigit(s[1..][0]);
          assert rest[0] == [s[1..][0]] + Split(s[1..][1..])[0];
          forall k | 1 <= k < |r| ensures IsDecimal(r[k]) {
            assert r[k] == rest[k - 1];
          }
        }
        if TailSegmentsDecimal(r) {
          assert IsDecimal(r[1]) && r[1] == rest[0];
          assert s[1..] != [];
          assert rest[0] == if s[1..][0] == ',' then "" else [s[1..][0]] + Split(s[1..][1..])[0];
          forall k | 1 <= k < |rest| ensures IsDecimal(rest[k]) {
            assert rest[k] == r[k + 1];
          }
          assert IsDigit(rest[0][0]);
          assert rest[0][0] == s[1..][0];
        }
      } else {
        assert r[0] == [s[0]] + rest[0];
        assert r[1..] == rest[1..];
        if IsDigit(s[0]) {
          assert AllDigits(r[0]) <==> AllDigits(rest[0]) by {
            if AllDigits(rest[0]) {
              forall i | 0 <= i < |r[0]| ensures IsDigit(r[0][i]) {
                if i > 0 {
                  assert r[0][i] == rest[0][i - 1];
                }
              }
            }
            if AllDigits(r[0]) {
              forall i | 0 <= i < |rest[0]| ensures IsDigit(rest[0][i]) {
                assert rest[0][i] == r[0][i + 1];
              }
            }
          }
          forall k | 1 <= k < |r| ensures r[k] == rest[k] {
            assert r[k] == r[1..][k - 1];
          }
        } else {
          assert !IsDigit(r[0][0]);
        }
      }
    }
  }

  /** The pattern holds exactly when every comma-separated segment is a
      non-empty string of digits, which is what `to_python` parses. */
  predicate SegmentsDecimal(segs: seq<string>)
  {
    forall k {:trigger segs[k]} :: 0 <= k < |segs| ==> IsDecimal(segs[k])
  }

  lemma PatternSegments(s: string)
    ensures MatchesPattern(s) <==> SegmentsDecimal(Split(s))
  {
    var r := Split(s);
    CharsFitSegments(s);
    if s == [] {
      assert r == [""];
      assert !IsDecimal(r[0]);
    } else {
      CharsFitCons(s);
      if s[0] == ',' {
        assert r[0] == "";
      } else {
        assert r[0] == [s[0]] + Split(s[1..])[0];
        assert r[0][0] == s[0];
      }
    }
  }

  /** `to_python`: split on commas and parse each segment as an int. */
  function ToPython(value: string): (r: seq<int>)
    requires MatchesPattern(value)
    ensures |r| == CommaCount(value) + 1
    ensures forall k :: 0 <= k < |r| ==> r[k] >= 0
  {
    PatternSegments(value);
    ParseSegments(Split(value))
  }

  function ParseSegments(segs: seq<string>): (r: seq<int>)
    requires SegmentsDecimal(segs)
    ensures |r| == |segs|
    ensures forall k :: 0 <= k < |r| ==> r[k] == ParseDigits(segs[k])
  {
    if segs == [] then [] else [ParseDigits(segs[0]) as int] + ParseSegments(segs[1..])
  }

  /** Python's `str(n)` for an int: a minus sign before negative numbers. */
  function ShowInt(n: int): (s: string)
    ensures ',' !in s
    ensures |s| > 0
    ensures n < 0 ==> s[0] == '-'
    ensures n >= 0 <==> IsDecimal(s)
  {
    if n < 0 then "-" + ShowNat(-n) else ShowNat(n)
  }

  /** `to_url`: the decimal renderings of the ints, joined with commas. */
  function ToUrl(xs: seq<int>): (s: string)
    ensures Split(s) == if xs == [] then [""] else seq(|xs|, k requires 0 <= k < |xs| => ShowInt(xs[k]))
  {
    var segs := seq(|xs|, k requires 0 <= k < |xs| => ShowInt(xs[k]));
    if xs == [] then Join(segs)
    else SplitJoin(segs); Join(segs)
  }

  /** A non-empty list of non-negative ints survives the trip through the URL. */
  lemma RoundTrip(xs: seq<int>)
    requires xs != []
    requires forall k :: 0 <= k < |xs| ==> xs[k] >= 0
    ensures MatchesPattern(ToUrl(xs))
    ensures ToPython(ToUrl(xs)) == xs
  {
    var s := ToUrl(xs);
    PatternSegments(s);
    var r := ToPython(s);
    forall k | 0 <= k < |xs| ensures r[k] == xs[k] {
      ParseShowNat(xs[k]);
    }
  }

  /** The empty list, or a list holding a negative int, renders to text the
      converter's own pattern refuses. */
  lemma UrlOutsidePattern(xs: seq<int>)
    requires xs == [] || exists k :: 0 <= k < |xs| && xs[k] < 0
    ensures !MatchesPattern(ToUrl(xs))
  {
    PatternSegments(ToUrl(xs));
    if xs == [] {
      assert !IsDecimal(Split(ToUrl(xs))[0]);
    } else {
      var k :| 0 <= k < |xs| && xs[k] < 0;
      assert !IsDecimal(Split(ToUrl(xs))[k]);
    }
  }
}

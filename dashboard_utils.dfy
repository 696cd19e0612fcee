/** `formatActivityType` of lib/dashboardUtils.tsx: the label of an
    activity kind, with its first character upper-cased and the first '_'
    after it turned into a space. */
module DashboardUtils {
  import opened Strings
  import opened Types

  /** The index of the first `c` in `s`, or `|s|` when there is none. */
  function IndexOf(s: string, c: char): (i: nat)
    ensures i <= |s|
    ensures i < |s| ==> s[i] == c
    ensures forall j :: 0 <= j < i ==> s[j] != c
  {
    if s == [] then 0 else if s[0] == c then 0 else 1 + IndexOf(s[1..], c)
  }

  /** `s.replace(c, d)` with a one-character search string: only the first
      occurrence is replaced. */
  function ReplaceFirst(s: string, c: char, d: char): (r: string)
    ensures |r| == |s|
  {
    if s == [] then []
    else if s[0] == c then [d] + s[1..]
    else [s[0]] + ReplaceFirst(s[1..], c, d)
  }

  /** Only the first occurrence changes. */
  lemma {:induction false} ReplaceFirstSpec(s: string, c: char, d: char)
    ensures forall j :: 0 <= j < |s| ==>
              ReplaceFirst(s, c, d)[j] == if j == IndexOf(s, c) then d else s[j]
  {
    if s != [] && s[0] != c {
      ReplaceFirstSpec(s[1..], c, d);
      var r := ReplaceFirst(s, c, d);
      assert r == [s[0]] + ReplaceFirst(s[1..], c, d);
      forall j | 1 <= j < |s| ensures r[j] == if j == IndexOf(s, c) then d else s[j] {
        assert r[j] == ReplaceFirst(s[1..], c, d)[j - 1];
      }
    }
  }

  /** `type.charAt(0).toUpperCase() + type.slice(1).replace('_', ' ')`. */
  function FormatActivityType(t: string): (r: string)
    ensures |r| == |t|
    ensures t != [] ==> r[0] == ToUpperChar(t[0])
  {
    if t == [] then [] else [ToUpperChar(t[0])] + ReplaceFirst(t[1..], '_', ' ')
  }

  /** The label keeps every character after the first, except that the
      first '_' among them becomes a space; for ASCII input the label has
      the length of the kind. */
  lemma FormatActivityTypeSpec(t: string)
    ensures forall i :: 1 <= i < |t| ==>
              FormatActivityType(t)[i] == if i == 1 + IndexOf(t[1..], '_') then ' ' else t[i]
  {
    if t != [] {
      ReplaceFirstSpec(t[1..], '_', ' ');
      var r := FormatActivityType(t);
      forall i | 1 <= i < |t|
        ensures r[i] == if i == 1 + IndexOf(t[1..], '_') then ' ' else t[i]
      {
        assert r[i] == ReplaceFirst(t[1..], '_', ' ')[i - 1];
      }
    }
  }

  /** Replacing at the first occurrence, written as a splice. */
  lemma {:induction false} ReplaceFirstAt(s: string, c: char, d: char, k: nat)
    requires k < |s| && s[k] == c && forall j :: 0 <= j < k ==> s[j] != c
    ensures ReplaceFirst(s, c, d) == s[..k] + [d] + s[k + 1..]
  {
    if k > 0 {
      ReplaceFirstAt(s[1..], c, d, k - 1);
      assert s[1..][..k - 1] == s[1..k];
      assert s[1..][k..] == s[k + 1..];
      assert [s[0]] + s[1..k] == s[..k];
    }
  }

  /** Without an occurrence nothing is replaced. */
  lemma {:induction false} ReplaceFirstAbsent(s: string, c: char, d: char)
    requires forall j :: 0 <= j < |s| ==> s[j] != c
    ensures ReplaceFirst(s, c, d) == s
  {
    if s != [] {
      ReplaceFirstAbsent(s[1..], c, d);
      assert s == [s[0]] + s[1..];
    }
  }

  /** The label of a kind `h a _ b` whose part `a` has no underscore. */
  lemma SplitLabel(h: char, a: string, b: string)
    requires forall j :: 0 <= j < |a| ==> a[j] != '_'
    ensures FormatActivityType([h] + a + "_" + b) == [ToUpperChar(h)] + a + " " + b
  {
    var t := [h] + a + "_" + b;
    assert t[1..] == a + "_" + b;
    ReplaceFirstAt(t[1..], '_', ' ', |a|);
    assert t[1..][..|a|] == a && t[1..][|a| + 1..] == b;
  }

  /** The label of a kind without underscore is the kind capitalised. */
  lemma PlainLabel(h: char, a: string)
    requires forall j :: 0 <= j < |a| ==> a[j] != '_'
    ensures FormatActivityType([h] + a) == [ToUpperChar(h)] + a
  {
    assert ([h] + a)[1..] == a;
    ReplaceFirstAbsent(a, '_', ' ');
  }

  /** The labels the dashboard shows for the four kinds. */
  lemma PriceUpdateLabel()
    ensures FormatActivityType(TypeName(PriceUpdate)) == "Price update"
  {
    assert TypeName(PriceUpdate) == ['p'] + "rice" + "_" + "update";
    SplitLabel('p', "rice", "update");
    assert [ToUpperChar('p')] + "rice" + " " + "update" == "Price update";
  }

  lemma StatusChangeLabel()
    ensures FormatActivityType(TypeName(StatusChange)) == "Status change"
  {
    assert TypeName(StatusChange) == ['s'] + "tatus" + "_" + "change";
    SplitLabel('s', "tatus", "change");
    assert [ToUpperChar('s')] + "tatus" + " " + "change" == "Status change";
  }

  lemma ListingLabel()
    ensures FormatActivityType(TypeName(ListingActivity)) == "Listing"
  {
    assert TypeName(ListingActivity) == ['l'] + "isting";
    PlainLabel('l', "isting");
    assert [ToUpperChar('l')] + "isting" == "Listing";
  }

  lemma InquiryLabel()
    ensures FormatActivityType(TypeName(InquiryActivity)) == "Inquiry"
  {
    assert TypeName(InquiryActivity) == ['i'] + "nquiry";
    PlainLabel('i', "nquiry");
    assert [ToUpperChar('i')] + "nquiry" == "Inquiry";
  }

  /** Only the first underscore becomes a space. */
  lemma OnlyFirstUnderscore()
    ensures FormatActivityType("a_b_c") == "A b_c"
  {
    ReplaceFirstAt("_b_c", '_', ' ', 0);
  }
}

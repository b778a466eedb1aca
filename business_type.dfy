/** `normalizeBusinessType`: maps the business type an operator supplies onto one of
    the structures the payment provider accepts. The input is lower-cased, trimmed and
    looked up in a fixed table; anything missing or unknown becomes `"llc"`. */
module BusinessType {
  import opened JsValue

  /** The characters `String.prototype.trim` removes: the ECMAScript WhiteSpace and
      LineTerminator code points. */
  predicate IsWhitespace(c: char)
  {
    c == '\t' || c == '\n' || c == '\U{000B}' || c == '\U{000C}' || c == '\r' || c == ' '
    || c == '\U{00A0}' || c == '\U{1680}' || ('\U{2000}' <= c <= '\U{200A}')
    || c == '\U{2028}' || c == '\U{2029}' || c == '\U{202F}' || c == '\U{205F}'
    || c == '\U{3000}' || c == '\U{FEFF}'
  }

  predicate IsUpper(c: char)
  {
    'A' <= c <= 'Z'
  }

  /** Lower-cases one ASCII letter and leaves every other character alone. */
  function LowerChar(c: char): (r: char)
    ensures !IsUpper(r)
    ensures !IsUpper(c) ==> r == c
  {
    if IsUpper(c) then (c as int - 'A' as int + 'a' as int) as char else c
  }

  /** `s.toLowerCase()` on the ASCII letters. */
  function Lower(s: string): (r: string)
    ensures |r| == |s|
    ensures forall i :: 0 <= i < |s| ==> r[i] == LowerChar(s[i])
  {
    if s == [] then [] else [LowerChar(s[0])] + Lower(s[1..])
  }

  predicate AllWhitespace(s: string)
  {
    forall i :: 0 <= i < |s| ==> IsWhitespace(s[i])
  }

  /** The number of whitespace characters `s` starts with. */
  function LeadingWhitespace(s: string): (n: nat)
    ensures n <= |s| && forall i :: 0 <= i < n ==> IsWhitespace(s[i])
    ensures n < |s| ==> !IsWhitespace(s[n])
  {
    if s != [] && IsWhitespace(s[0]) then 1 + LeadingWhitespace(s[1..]) else 0
  }

  /** Where the whitespace `s` ends with begins. */
  function TrailingWhitespace(s: string): (n: nat)
    ensures n <= |s| && forall i :: n <= i < |s| ==> IsWhitespace(s[i])
    ensures 0 < n ==> !IsWhitespace(s[n - 1])
  {
    if s != [] && IsWhitespace(s[|s| - 1]) then TrailingWhitespace(s[..|s| - 1]) else |s|
  }

  /** `s.trimStart()`. */
  function TrimStart(s: string): string
  {
    s[LeadingWhitespace(s)..]
  }

  /** `s.trimEnd()`. */
  function TrimEnd(s: string): string
  {
    s[..TrailingWhitespace(s)]
  }

  /** `s.trim()`. */
  function Trim(s: string): string
  {
    TrimEnd(TrimStart(s))
  }

  /** The key looked up for a string input: `type.toLowerCase().trim()`. */
  function Canonical(s: string): string
  {
    Trim(Lower(s))
  }

  /** `typeMap`, as its own properties. */
  const TypeMap: map<string, string> := map[
    "llc" := "llc",
    "corporation" := "privateCorporation",
    "corp" := "privateCorporation",
    "inc" := "privateCorporation",
    "incorporated" := "privateCorporation",
    "partnership" := "partnership",
    "soleProprietorship" := "soleProprietorship",
    "sole proprietorship" := "soleProprietorship",
    "unincorporatedAssociation" := "unincorporatedAssociation",
    "trust" := "trust",
    "publicCorporation" := "publicCorporation",
    "privateCorporation" := "privateCorporation",
    "nonprofit" := "unincorporatedNonProfit"
  ]

  /** `typeMap[normalized] || "llc"`: every table value is a non-empty string, so the
      fallback applies exactly to the keys the table lacks. */
  function Lookup(key: string): string
  {
    if key in TypeMap then TypeMap[key] else "llc"
  }

  /** `normalizeBusinessType(type)`. A falsy input gives `"llc"`; a string is
      canonicalised and looked up; any other truthy value has no `toLowerCase` method,
      so the call throws. */
  function NormalizeBusinessType(t: Value): (r: Completion<string>)
    ensures r.Throw? <==> Truthy(t) && !t.Str?
    ensures !Truthy(t) ==> r == Normal("llc")
  {
    if !Truthy(t) then Normal("llc")
    else if t.Str? then Normal(Lookup(Canonical(t.s)))
    else Throw("type.toLowerCase is not a function")
  }

  /** The structures a call can actually return. */
  const Reachable: set<string> :=
    {"llc", "privateCorporation", "partnership", "soleProprietorship", "trust", "unincorporatedNonProfit"}

  predicate NoUpper(s: string)
  {
    forall i :: 0 <= i < |s| ==> !IsUpper(s[i])
  }

  // ---------------------------------------------------------------------------
  // Trimming

  /** The leading whitespace is the longest whitespace prefix. */
  lemma LeadingUnique(s: string, n: nat)
    requires n <= |s| && forall i :: 0 <= i < n ==> IsWhitespace(s[i])
    requires n < |s| ==> !IsWhitespace(s[n])
    ensures LeadingWhitespace(s) == n
  {
  }

  /** The trailing whitespace is the longest whitespace suffix. */
  lemma TrailingUnique(s: string, n: nat)
    requires n <= |s| && forall i :: n <= i < |s| ==> IsWhitespace(s[i])
    requires 0 < n ==> !IsWhitespace(s[n - 1])
    ensures TrailingWhitespace(s) == n
  {
  }

  /** `s.trim()` is the piece `s[i..j]` between a whitespace prefix and a whitespace
      suffix that starts and ends with a non-whitespace character, or nothing when
      `s` is all whitespace. */
  lemma TrimIs(s: string, i: nat, j: nat)
    requires i <= j <= |s|
    requires forall k :: 0 <= k < i ==> IsWhitespace(s[k])
    requires forall k :: j <= k < |s| ==> IsWhitespace(s[k])
    requires i < j ==> !IsWhitespace(s[i]) && !IsWhitespace(s[j - 1])
    ensures Trim(s) == s[i..j]
  {
    if i < j {
      LeadingUnique(s, i);
      var t := s[i..];
      TrailingUnique(t, j - i);
      assert t[..j - i] == s[i..j];
    } else {
      LeadingUnique(s, |s|);
    }
  }

  /** The bounds of `s.trim()` within `s`. */
  lemma TrimBounds(s: string) returns (i: nat, j: nat)
    ensures i <= j <= |s|
    ensures forall k :: 0 <= k < i ==> IsWhitespace(s[k])
    ensures forall k :: j <= k < |s| ==> IsWhitespace(s[k])
    ensures i < j ==> !IsWhitespace(s[i]) && !IsWhitespace(s[j - 1])
    ensures Trim(s) == s[i..j]
  {
    i := LeadingWhitespace(s);
    var t := s[i..];
    var k := TrailingWhitespace(t);
    j := i + k;
    assert forall m :: j <= m < |s| ==> s[m] == t[m - i];
    if k > 0 {
      assert s[j - 1] == t[k - 1];
    }
    assert Trim(s) == t[..k] == s[i..j];
  }

  /** Surrounding whitespace makes no difference to the trimmed string. */
  lemma TrimPadding(w1: string, s: string, w2: string)
    requires AllWhitespace(w1) && AllWhitespace(w2)
    ensures Trim(w1 + s + w2) == Trim(s)
  {
    var i, j := TrimBounds(s);
    if i < j {
      TrimPaddingInner(w1, s, w2, i, j);
    } else {
      TrimPaddingBlank(w1, s, w2, i);
    }
  }

  lemma TrimPaddingInner(w1: string, s: string, w2: string, i: nat, j: nat)
    requires AllWhitespace(w1) && AllWhitespace(w2)
    requires i < j <= |s|
    requires forall k :: 0 <= k < i ==> IsWhitespace(s[k])
    requires forall k :: j <= k < |s| ==> IsWhitespace(s[k])
    requires !IsWhitespace(s[i]) && !IsWhitespace(s[j - 1])
    ensures Trim(w1 + s + w2) == s[i..j]
  {
    PaddedPrefix(w1, s, w2, i);
    PaddedSuffix(w1, s, w2, j);
    MiddleSlice(w1, s, w2, i, j);
    TrimIs(w1 + s + w2, |w1| + i, |w1| + j);
  }

  lemma MiddleSlice(w1: string, s: string, w2: string, i: nat, j: nat)
    requires i < j <= |s|
    ensures (w1 + s + w2)[|w1| + i..|w1| + j] == s[i..j]
    ensures (w1 + s + w2)[|w1| + i] == s[i] && (w1 + s + w2)[|w1| + j - 1] == s[j - 1]
  {
    var x := w1 + s + w2;
    assert forall k :: 0 <= k < j - i ==> x[|w1| + i..|w1| + j][k] == s[i..j][k];
  }

  lemma PaddedPrefix(w1: string, s: string, w2: string, i: nat)
    requires AllWhitespace(w1) && i <= |s|
    requires forall k :: 0 <= k < i ==> IsWhitespace(s[k])
    ensures forall k :: 0 <= k < |w1| + i ==> IsWhitespace((w1 + s + w2)[k])
  {
    var x := w1 + s + w2;
    forall k | 0 <= k < |w1| + i ensures IsWhitespace(x[k]) {
      if k < |w1| { assert x[k] == w1[k]; } else { assert x[k] == s[k - |w1|]; }
    }
  }

  lemma PaddedSuffix(w1: string, s: string, w2: string, j: nat)
    requires AllWhitespace(w2) && j <= |s|
    requires forall k :: j <= k < |s| ==> IsWhitespace(s[k])
    ensures forall k :: |w1| + j <= k < |w1 + s + w2| ==> IsWhitespace((w1 + s + w2)[k])
  {
    var x := w1 + s + w2;
    forall k | |w1| + j <= k < |x| ensures IsWhitespace(x[k]) {
      if k < |w1| + |s| { assert x[k] == s[k - |w1|]; } else { assert x[k] == w2[k - |w1| - |s|]; }
    }
  }

  lemma TrimPaddingBlank(w1: string, s: string, w2: string, i: nat)
    requires AllWhitespace(w1) && AllWhitespace(w2)
    requires i <= |s|
    requires forall k :: 0 <= k < i ==> IsWhitespace(s[k])
    requires forall k :: i <= k < |s| ==> IsWhitespace(s[k])
    ensures Trim(w1 + s + w2) == []
  {
    var x := w1 + s + w2;
    var n := |w1|;
    forall k | 0 <= k < |x| ensures IsWhitespace(x[k]) {
      if k < n {
        assert x[k] == w1[k];
      } else if k < n + |s| {
        assert x[k] == s[k - n];
      } else {
        assert x[k] == w2[k - n - |s|];
      }
    }
    TrimIs(x, 0, 0);
  }

  // ---------------------------------------------------------------------------
  // Properties of normalizeBusinessType

  lemma LowerConcat(a: string, b: string)
    ensures Lower(a + b) == Lower(a) + Lower(b)
  {
  }

  lemma LowerWhitespace(w: string)
    requires AllWhitespace(w)
    ensures Lower(w) == w
  {
  }

  /** Only the lower-cased, trimmed input decides the result: surrounding whitespace and
      letter case make no difference. */
  lemma NormalizePadding(w1: string, s: string, w2: string)
    requires AllWhitespace(w1) && AllWhitespace(w2)
    ensures NormalizeBusinessType(Str(w1 + s + w2)) == NormalizeBusinessType(Str(s))
  {
    LowerConcat(w1 + s, w2);
    LowerConcat(w1, s);
    LowerWhitespace(w1);
    LowerWhitespace(w2);
    TrimPadding(w1, Lower(s), w2);
  }

  lemma NormalizeCase(s: string, t: string)
    requires Lower(s) == Lower(t)
    ensures NormalizeBusinessType(Str(s)) == NormalizeBusinessType(Str(t))
  {
  }

  /** The canonical key has no upper-case letter. */
  lemma CanonicalNoUpper(s: string)
    ensures NoUpper(Canonical(s))
  {
    var l := Lower(s);
    var i, j := TrimBounds(l);
    forall k | 0 <= k < j - i ensures !IsUpper(Canonical(s)[k]) {
      assert Canonical(s)[k] == l[i + k] == LowerChar(s[i + k]);
    }
  }

  /** A key without upper-case letters maps into the reachable structures: the
      camelCase keys of the table can never match. */
  lemma LookupLowerCase(key: string)
    requires NoUpper(key)
    ensures Lookup(key) in Reachable
  {
    assert IsUpper("soleProprietorship"[4]);
    assert IsUpper("unincorporatedAssociation"[14]);
    assert IsUpper("publicCorporation"[6]);
    assert IsUpper("privateCorporation"[7]);
  }

  /** Every result is one of six structures. */
  lemma NormalizeRange(t: Value)
    requires NormalizeBusinessType(t).Normal?
    ensures NormalizeBusinessType(t).value in Reachable
  {
    if Truthy(t) {
      CanonicalNoUpper(t.s);
      LookupLowerCase(Canonical(t.s));
    }
  }

  /** A key that is already lower-case and trimmed is looked up as it is. */
  lemma CanonicalKey(s: string)
    requires s != [] && NoUpper(s) && !IsWhitespace(s[0]) && !IsWhitespace(s[|s| - 1])
    ensures NormalizeBusinessType(Str(s)) == Normal(Lookup(s))
  {
    assert forall i :: 0 <= i < |s| ==> Lower(s)[i] == s[i];
    assert Lower(s) == s;
    TrimIs(s, 0, |s|);
    assert Canonical(s) == s;
  }

  // The examples below are proved one literal fact at a time.

  lemma LowerCorp()
    ensures Lower("Corp") == Lower("corp")
  {
    assert Lower("Corp") == "corp";
    assert Lower("corp") == "corp";
  }

  lemma LowerInc()
    ensures Lower("INC") == Lower("inc")
  {
    assert Lower("INC") == "inc";
    assert Lower("inc") == "inc";
  }

  lemma CorpKey()
    ensures NormalizeBusinessType(Str("corp")) == Normal("privateCorporation")
  {
    assert Lookup("corp") == "privateCorporation";
    CanonicalKey("corp");
  }

  lemma IncKey()
    ensures NormalizeBusinessType(Str("inc")) == Normal("privateCorporation")
  {
    assert Lookup("inc") == "privateCorporation";
    CanonicalKey("inc");
  }

  /** The lower-case keys of the table have these lengths. */
  lemma LowerCaseKeyLengths(key: string)
    requires NoUpper(key) && key in TypeMap
    ensures |key| in {3, 4, 5, 9, 11, 12, 19}
  {
    assert IsUpper("soleProprietorship"[4]);
    assert IsUpper("unincorporatedAssociation"[14]);
    assert IsUpper("publicCorporation"[6]);
    assert IsUpper("privateCorporation"[7]);
  }

  /** The canonical key of a string without surrounding whitespace is as long as it. */
  lemma CanonicalLength(s: string)
    requires s != [] && !IsWhitespace(s[0]) && !IsWhitespace(s[|s| - 1])
    ensures |Canonical(s)| == |s|
  {
    var l := Lower(s);
    assert l[0] == LowerChar(s[0]) && l[|s| - 1] == LowerChar(s[|s| - 1]);
    TrimIs(l, 0, |l|);
  }

  lemma PrivateCorporationCanonical()
    ensures |Canonical("privateCorporation")| == 18 && NoUpper(Canonical("privateCorporation"))
  {
    CanonicalLength("privateCorporation");
    CanonicalNoUpper("privateCorporation");
  }

  lemma PrivateCorporationMisses()
    ensures NormalizeBusinessType(Str("privateCorporation")) == Normal("llc")
  {
    var key := Canonical("privateCorporation");
    PrivateCorporationCanonical();
    if key in TypeMap {
      LowerCaseKeyLengths(key);
    }
  }

  /** `"Corp"` is lower-cased to the key `"corp"`. */
  lemma CorpExample()
    ensures NormalizeBusinessType(Str("Corp")) == Normal("privateCorporation")
  {
    LowerCorp();
    NormalizeCase("Corp", "corp");
    CorpKey();
  }

  lemma CorporationExample()
    ensures NormalizeBusinessType(Str("corporation")) == Normal("privateCorporation")
  {
    assert Lookup("corporation") == "privateCorporation";
    CanonicalKey("corporation");
  }

  /** `" INC "` is trimmed and lower-cased to the key `"inc"`. */
  lemma IncExample()
    ensures NormalizeBusinessType(Str(" INC ")) == Normal("privateCorporation")
  {
    assert " INC " == " " + "INC" + " ";
    NormalizePadding(" ", "INC", " ");
    LowerInc();
    NormalizeCase("INC", "inc");
    IncKey();
  }

  /** `"INC"` is lower-cased to the key `"inc"`. */
  lemma UpperIncExample()
    ensures NormalizeBusinessType(Str("INC")) == Normal("privateCorporation")
  {
    LowerInc();
    NormalizeCase("INC", "inc");
    IncKey();
  }

  /** A non-empty string whose key the table lacks gets the same structure as no
      business type. */
  lemma UnknownDefault(s: string)
    requires s != "" && Canonical(s) !in TypeMap
    ensures NormalizeBusinessType(Str(s)) == NormalizeBusinessType(Undefined) == Normal("llc")
  {
  }

  lemma IncorporatedExample()
    ensures NormalizeBusinessType(Str("incorporated")) == Normal("privateCorporation")
  {
    assert Lookup("incorporated") == "privateCorporation";
    CanonicalKey("incorporated");
  }

  /** The camelCase key `privateCorporation` is lower-cased before the lookup and so
      falls back to `"llc"`, although `"corp"` maps to it: the normaliser is not
      idempotent. */
  lemma NotIdempotent()
    ensures NormalizeBusinessType(Str("corp")) == Normal("privateCorporation")
    ensures NormalizeBusinessType(Str("privateCorporation")) == Normal("llc")
  {
    CorpKey();
    PrivateCorporationMisses();
  }

  lemma LlcKey()
    ensures NormalizeBusinessType(Str("llc")) == Normal("llc")
  {
    assert Lookup("llc") == "llc";
    CanonicalKey("llc");
  }

  lemma PartnershipKey()
    ensures NormalizeBusinessType(Str("partnership")) == Normal("partnership")
  {
    assert "partnership"[0] != "corporation"[0];
    assert Lookup("partnership") == "partnership";
    CanonicalKey("partnership");
  }

  lemma SoleProprietorshipKey()
    ensures NormalizeBusinessType(Str("sole proprietorship")) == Normal("soleProprietorship")
  {
    assert Lookup("sole proprietorship") == "soleProprietorship";
    CanonicalKey("sole proprietorship");
  }

  lemma TrustKey()
    ensures NormalizeBusinessType(Str("trust")) == Normal("trust")
  {
    assert Lookup("trust") == "trust";
    CanonicalKey("trust");
  }

  lemma NonprofitKey()
    ensures NormalizeBusinessType(Str("nonprofit")) == Normal("unincorporatedNonProfit")
  {
    assert Lookup("nonprofit") == "unincorporatedNonProfit";
    CanonicalKey("nonprofit");
  }

  /** Each of the six structures is the result for some input. */
  lemma RangeAttained()
    ensures NormalizeBusinessType(Str("llc")) == Normal("llc")
    ensures NormalizeBusinessType(Str("corp")) == Normal("privateCorporation")
    ensures NormalizeBusinessType(Str("partnership")) == Normal("partnership")
    ensures NormalizeBusinessType(Str("sole proprietorship")) == Normal("soleProprietorship")
    ensures NormalizeBusinessType(Str("trust")) == Normal("trust")
    ensures NormalizeBusinessType(Str("nonprofit")) == Normal("unincorporatedNonProfit")
  {
    LlcKey();
    CorpKey();
    PartnershipKey();
    SoleProprietorshipKey();
    TrustKey();
    NonprofitKey();
  }
}

/**
 * The prompt guard `valid_prompt` of scripts/bedrock_utils.py: a total,
 * rule-based classifier that lowercases and strips the user's question and
 * then rejects it on the first of four lexical rules that matches.
 *
 * The three regular expressions of the first rule are written out as
 * predicates over ASCII text; each predicate says what `re.search` finds.
 */
module PromptGuard {
  import opened Strings

  const PiiReason := "The request appears to ask for personal contact information; this is not allowed."
  const AddressReason := "The request asks for personal contact or address details; I cannot provide that."
  const InvestmentReason := "I cannot give personalized investment advice."
  const HarmReason := "I cannot assist with harmful or illegal activities."
  const AdmittedReason := "OK"

  const AddressKeywords: seq<string> :=
    ["address", "home address", "phone number", "mobile number", "contact number"]
  const InvestmentKeywords: seq<string> :=
    ["should i buy", "stock", "buy shares", "investment advice", "which stock"]
  const HarmKeywords: seq<string> :=
    ["how to hack", "how to steal", "illegal", "bomb", "explosive"]

  /** The `(is_valid, reason)` pair `valid_prompt` returns. */
  datatype Verdict = Verdict(ok: bool, reason: string)

  predicate IsDigit(c: char) { '0' <= c <= '9' }

  predicate IsAsciiAlnum(c: char) { IsDigit(c) || 'a' <= c <= 'z' || 'A' <= c <= 'Z' }

  /** `\w` on ASCII. */
  predicate IsWordChar(c: char) { IsAsciiAlnum(c) || c == '_' }

  /** `t[i..i + n]` is made of `n` decimal digits. */
  predicate DigitsAt(t: string, i: int, n: nat) {
    0 <= i && i + n <= |t| && forall k :: i <= k < i + n ==> IsDigit(t[k])
  }

  /**
   * `\d{3}[\s-]?\d{4}` matches at index `i`. Both leading groups of the phone
   * expression `(\+?\d{1,3}[\s-]?)?(\(?\d{3}\)?[\s-]?)?\d{3}[\s-]?\d{4}` may
   * match the empty string, so `re.search` with the whole expression succeeds
   * exactly when this tail matches somewhere.
   */
  predicate PhoneAt(t: string, i: int) {
    DigitsAt(t, i, 3) &&
    (DigitsAt(t, i + 3, 4) ||
     (i + 3 < |t| && (IsSpace(t[i + 3]) || t[i + 3] == '-') && DigitsAt(t, i + 4, 4)))
  }

  /** `re.search(phone_regex, t)` succeeds; a match spans at least seven characters. */
  predicate PhoneMatch(t: string)
    ensures PhoneMatch(t) ==> |t| >= 7
  {
    exists i | 0 <= i < |t| :: PhoneAt(t, i)
  }

  /** `[a-zA-Z0-9_.+-]` */
  predicate IsLocalChar(c: char) { IsAsciiAlnum(c) || c == '_' || c == '.' || c == '+' || c == '-' }

  /** `[a-zA-Z0-9-]` */
  predicate IsDomainChar(c: char) { IsAsciiAlnum(c) || c == '-' }

  /** `[a-zA-Z0-9-.]`: the `-` after the range `0-9` is a literal hyphen. */
  predicate IsTldChar(c: char) { IsAsciiAlnum(c) || c == '-' || c == '.' }

  /**
   * `[a-zA-Z0-9_.+-]+@[a-zA-Z0-9-]+\.[a-zA-Z0-9-.]+` has a match whose `@` is
   * `t[i]` and whose `.` is `t[j]`: one local character before the `@`, at
   * least one domain character between them and one final character after.
   */
  predicate EmailAt(t: string, i: int, j: int) {
    0 < i && i + 1 < j && j + 1 < |t| &&
    IsLocalChar(t[i - 1]) && t[i] == '@' &&
    (forall k :: i < k < j ==> IsDomainChar(t[k])) &&
    t[j] == '.' && IsTldChar(t[j + 1])
  }

  /**
   * `re.search(email_regex, t)` succeeds; a match spans at least five
   * characters and holds an `@` followed later by a `.`.
   */
  predicate EmailMatch(t: string)
    ensures EmailMatch(t) ==> |t| >= 5 && '@' in t && '.' in t
  {
    exists i, j | 0 <= i < j < |t| :: EmailAt(t, i, j)
  }

  /** `\b\d{3}-\d{2}-\d{4}\b` matches at index `i`. */
  predicate SsnAt(t: string, i: int) {
    DigitsAt(t, i, 3) && i + 3 < |t| && t[i + 3] == '-' &&
    DigitsAt(t, i + 4, 2) && i + 6 < |t| && t[i + 6] == '-' &&
    DigitsAt(t, i + 7, 4) &&
    (i == 0 || !IsWordChar(t[i - 1])) &&
    (i + 11 == |t| || !IsWordChar(t[i + 11]))
  }

  /** `re.search(ssn_regex, t)` succeeds; a match spans eleven characters and holds a `-`. */
  predicate SsnMatch(t: string)
    ensures SsnMatch(t) ==> |t| >= 11 && '-' in t
  {
    exists i | 0 <= i < |t| :: SsnAt(t, i)
  }

  /** The first rule: one of the three personal-information patterns is found. */
  predicate PiiMatch(t: string) { PhoneMatch(t) || EmailMatch(t) || SsnMatch(t) }

  /** `any(kw in text for kw in kws)`. */
  predicate AnyKeyword(kws: seq<string>, t: string) {
    exists k | 0 <= k < |kws| :: Contains(t, kws[k])
  }

  /**
   * `user_input.lower().strip()`: no longer than the input, without capitals,
   * and neither starting nor ending with a space.
   */
  function Normalize(userInput: string): (t: string)
    ensures |t| <= |userInput|
    ensures NoUpper(t)
    ensures t == [] || (!IsSpace(t[0]) && !IsSpace(t[|t| - 1]))
  {
    Strip(Lower(userInput))
  }

  /**
   * `valid_prompt(user_input)`: a prompt is admitted with reason "OK" exactly
   * when no rule matches; otherwise the first matching rule, in the order
   * personal-information patterns, address keywords, investment keywords,
   * harm keywords, gives the refusal and its reason.
   */
  function ValidPrompt(userInput: string): (v: Verdict)
    ensures v.ok <==> v == Verdict(true, AdmittedReason)
    ensures !v.ok ==> v.reason in {PiiReason, AddressReason, InvestmentReason, HarmReason}
    ensures var t := Normalize(userInput);
      v.ok <==> !PiiMatch(t) && !AnyKeyword(AddressKeywords, t) &&
                !AnyKeyword(InvestmentKeywords, t) && !AnyKeyword(HarmKeywords, t)
    ensures var t := Normalize(userInput);
      v.reason == PiiReason <==> PiiMatch(t)
    ensures var t := Normalize(userInput);
      v.reason == AddressReason <==> !PiiMatch(t) && AnyKeyword(AddressKeywords, t)
    ensures var t := Normalize(userInput);
      v.reason == InvestmentReason <==>
        !PiiMatch(t) && !AnyKeyword(AddressKeywords, t) && AnyKeyword(InvestmentKeywords, t)
    ensures var t := Normalize(userInput);
      v.reason == HarmReason <==>
        !PiiMatch(t) && !AnyKeyword(AddressKeywords, t) &&
        !AnyKeyword(InvestmentKeywords, t) && AnyKeyword(HarmKeywords, t)
  {
    var text := Normalize(userInput);
    if PiiMatch(text) then Verdict(false, PiiReason)
    else if AnyKeyword(AddressKeywords, text) then Verdict(false, AddressReason)
    else if AnyKeyword(InvestmentKeywords, text) then Verdict(false, InvestmentReason)
    else if AnyKeyword(HarmKeywords, text) then Verdict(false, HarmReason)
    else Verdict(true, AdmittedReason)
  }

  /** Normalising twice is normalising once. */
  lemma NormalizeIdempotent(userInput: string)
    ensures Normalize(Normalize(userInput)) == Normalize(userInput)
  {
    var low := Lower(userInput);
    var a, b := StripIsSlice(low);
    var t := Normalize(userInput);
    assert NoUpper(t) by {
      forall k | 0 <= k < |t| ensures !IsUpper(t[k]) {
        assert t[k] == low[a + k];
      }
    }
    LowerNoUpper(t);
    StripTrimmed(t);
  }

  /** The verdict depends only on `user_input.lower().strip()`. */
  lemma ValidPromptOfNormalized(userInput: string)
    ensures ValidPrompt(Normalize(userInput)) == ValidPrompt(userInput)
  {
    NormalizeIdempotent(userInput);
    SameNormalSameVerdict(Normalize(userInput), userInput);
  }

  /** Two inputs with the same normalised text get the same verdict. */
  lemma SameNormalSameVerdict(u: string, v: string)
    requires Normalize(u) == Normalize(v)
    ensures ValidPrompt(u) == ValidPrompt(v)
  {
  }

  /**
   * The normalised text is the lowercased input between a leading and a
   * trailing run of spaces; a character range of the input that starts and
   * ends with a non-space lies inside it.
   */
  lemma NormalizeKeeps(userInput: string, i: nat, j: nat) returns (a: nat)
    requires i < j <= |userInput|
    requires !IsSpace(userInput[i]) && !IsSpace(userInput[j - 1])
    ensures a <= i && j <= a + |Normalize(userInput)|
    ensures Moved(userInput, Normalize(userInput), a)
  {
    var low := Lower(userInput);
    assert low[i] == LowerChar(userInput[i]) && low[j - 1] == LowerChar(userInput[j - 1]);
    a := StripOffset(low, i, j);
    LowerSliceMoved(userInput, low, Strip(low), a);
  }

  /** A stretch of the lowercased input, starting at `a`, has moved from `a`. */
  lemma LowerSliceMoved(u: string, low: string, t: string, a: nat)
    requires |low| == |u| && forall k :: 0 <= k < |u| ==> low[k] == LowerChar(u[k])
    requires a + |t| <= |low| && forall k :: 0 <= k < |t| ==> t[k] == low[a + k]
    ensures Moved(u, t, a)
  {
    forall k | 0 <= k < |t| ensures t[k] == LowerChar(u[a + k]) {
      assert t[k] == low[a + k];
    }
  }

  /** A personal-information hit in the normalised text decides the verdict. */
  lemma PiiRejects(userInput: string)
    requires PiiMatch(Normalize(userInput))
    ensures ValidPrompt(userInput) == Verdict(false, PiiReason)
  {
  }

  /** `t` is the lowercased stretch of `u` that starts at offset `a`. */
  ghost predicate Moved(u: string, t: string, a: int) {
    0 <= a && a + |t| <= |u| &&
    forall k :: 0 <= k < |t| ==> t[k] == LowerChar(u[a + k])
  }

  lemma DigitsMove(u: string, t: string, a: int, p: int, n: nat)
    requires Moved(u, t, a) && a <= p && p + n <= a + |t| && DigitsAt(u, p, n)
    ensures DigitsAt(t, p - a, n)
  {
    forall k | p - a <= k < p - a + n ensures IsDigit(t[k]) {
      assert t[k] == LowerChar(u[a + k]);
    }
  }

  /**
   * Any input holding three digits, at most one space or hyphen, and four
   * digits is refused as a request for personal contact information, whatever
   * keywords it also holds.
   */
  lemma PhoneRejected(userInput: string, i: nat)
    requires PhoneAt(userInput, i)
    ensures ValidPrompt(userInput) == Verdict(false, PiiReason)
  {
    var u := userInput;
    var j := if DigitsAt(u, i + 3, 4) then i + 7 else i + 8;
    assert IsDigit(u[i]) && IsDigit(u[j - 1]);
    var a := NormalizeKeeps(u, i, j);
    var t := Normalize(u);
    assert Moved(u, t, a);
    PhoneMove(u, t, i, j, a);
    PiiRejects(u);
  }

  lemma PhoneMove(u: string, t: string, i: int, j: int, a: int)
    requires PhoneAt(u, i) && j == (if DigitsAt(u, i + 3, 4) then i + 7 else i + 8)
    requires Moved(u, t, a) && a <= i && j <= a + |t|
    ensures PhoneAt(t, i - a)
  {
    DigitsMove(u, t, a, i, 3);
    if DigitsAt(u, i + 3, 4) {
      DigitsMove(u, t, a, i + 3, 4);
    } else {
      DigitsMove(u, t, a, i + 4, 4);
      assert t[i + 3 - a] == LowerChar(u[a + (i + 3 - a)]);
    }
  }

  lemma EmailMove(u: string, t: string, i: int, j: int, a: int)
    requires EmailAt(u, i, j) && Moved(u, t, a) && a <= i - 1 && j + 2 <= a + |t|
    ensures EmailAt(t, i - a, j - a)
  {
    assert t[i - 1 - a] == LowerChar(u[a + (i - 1 - a)]);
    assert t[i - a] == LowerChar(u[a + (i - a)]);
    assert t[j - a] == LowerChar(u[a + (j - a)]);
    assert t[j + 1 - a] == LowerChar(u[a + (j + 1 - a)]);
    forall k | i - a < k < j - a ensures IsDomainChar(t[k]) {
      assert t[k] == LowerChar(u[a + k]);
    }
  }


  /** Any input holding an e-mail address, in any letter case, is refused. */
  lemma EmailRejected(userInput: string, i: nat, j: nat)
    requires EmailAt(userInput, i, j)
    ensures ValidPrompt(userInput) == Verdict(false, PiiReason)
  {
    var u := userInput;
    assert !IsSpace(u[i - 1]) && !IsSpace(u[j + 1]);
    var a := NormalizeKeeps(u, i - 1, j + 2);
    var t := Normalize(u);
    assert Moved(u, t, a);
    EmailMove(u, t, i, j, a);
    assert EmailMatch(t);
    PiiRejects(u);
  }

  lemma SsnMove(u: string, t: string, i: int, a: int)
    requires SsnAt(u, i) && Moved(u, t, a) && a <= i && i + 11 <= a + |t| <= |u|
    ensures SsnAt(t, i - a)
  {
    DigitsMove(u, t, a, i, 3);
    DigitsMove(u, t, a, i + 4, 2);
    DigitsMove(u, t, a, i + 7, 4);
    assert t[i + 3 - a] == LowerChar(u[a + (i + 3 - a)]);
    assert t[i + 6 - a] == LowerChar(u[a + (i + 6 - a)]);
    if a < i {
      assert t[i - 1 - a] == LowerChar(u[a + (i - 1 - a)]);
    }
    if i + 11 < a + |t| {
      assert t[i + 11 - a] == LowerChar(u[a + (i + 11 - a)]);
    }
  }

  /** Any input holding a social-security number between word boundaries is refused. */
  lemma SsnRejected(userInput: string, i: nat)
    requires SsnAt(userInput, i)
    ensures ValidPrompt(userInput) == Verdict(false, PiiReason)
  {
    var u := userInput;
    assert IsDigit(u[i]) && IsDigit(u[i + 10]);
    var a := NormalizeKeeps(u, i, i + 11);
    var t := Normalize(u);
    assert Moved(u, t, a);
    SsnMove(u, t, i, a);
    PiiRejects(u);
  }

  /** The input case-insensitively holds a keyword that has no space at either end. */
  lemma KeywordFound(userInput: string, kw: string)
    requires kw != [] && !IsSpace(kw[0]) && !IsSpace(kw[|kw| - 1])
    requires Contains(Lower(userInput), kw)
    ensures Contains(Normalize(userInput), kw)
  {
    var i := KeywordAt(userInput, kw);
    var j := i + |kw|;
    assert !IsSpace(userInput[i]) && !IsSpace(userInput[j - 1]);
    var a := NormalizeKeeps(userInput, i, j);
    KeywordMove(userInput, Normalize(userInput), kw, i, a);
  }

  /** Where the lowercased input holds `kw`, the input's end characters lowercase to `kw`'s. */
  lemma KeywordAt(userInput: string, kw: string) returns (i: nat)
    requires kw != [] && Contains(Lower(userInput), kw)
    ensures OccursAt(Lower(userInput), kw, i)
    ensures LowerChar(userInput[i]) == kw[0] && LowerChar(userInput[i + |kw| - 1]) == kw[|kw| - 1]
  {
    var low := Lower(userInput);
    ContainsIff(low, kw);
    var p :| OccursAt(low, kw, p);
    i := p;
    var j := i + |kw|;
    assert low[i..j][0] == low[i] == LowerChar(userInput[i]);
    assert low[i..j][|kw| - 1] == low[j - 1] == LowerChar(userInput[j - 1]);
  }

  lemma KeywordMove(u: string, t: string, kw: string, i: int, a: int)
    requires OccursAt(Lower(u), kw, i)
    requires Moved(u, t, a) && a <= i && i + |kw| <= a + |t|
    ensures Contains(t, kw)
  {
    var low := Lower(u);
    var p := i - a;
    forall k | 0 <= k < |kw| ensures t[p + k] == kw[k] {
      assert t[p + k] == LowerChar(u[a + (p + k)]);
      assert a + (p + k) == i + k;
      assert low[i..i + |kw|][k] == low[i + k];
    }
    assert t[p..p + |kw|] == kw;
    ContainsAt(t, kw, p);
  }

  /** None of the keywords starts or ends with a space. */
  lemma KeywordsTrimmed(kws: seq<string>, k: nat)
    requires kws in {AddressKeywords, InvestmentKeywords, HarmKeywords} && k < |kws|
    ensures kws[k] != [] && !IsSpace(kws[k][0]) && !IsSpace(kws[k][|kws[k]| - 1])
  {
  }

  /**
   * An input holding an address keyword, in any letter case, is refused: for
   * personal information if a pattern also matches, for address details otherwise.
   */
  lemma AddressKeywordRejected(userInput: string, k: nat)
    requires k < |AddressKeywords| && Contains(Lower(userInput), AddressKeywords[k])
    ensures !ValidPrompt(userInput).ok
    ensures ValidPrompt(userInput).reason in {PiiReason, AddressReason}
    ensures !PiiMatch(Normalize(userInput)) ==> ValidPrompt(userInput).reason == AddressReason
  {
    KeywordsTrimmed(AddressKeywords, k);
    KeywordFound(userInput, AddressKeywords[k]);
  }

  /**
   * An input holding an investment keyword, in any letter case, is refused; the
   * reason is the investment one unless an earlier rule already matched.
   */
  lemma InvestmentKeywordRejected(userInput: string, k: nat)
    requires k < |InvestmentKeywords| && Contains(Lower(userInput), InvestmentKeywords[k])
    ensures !ValidPrompt(userInput).ok
    ensures ValidPrompt(userInput).reason in {PiiReason, AddressReason, InvestmentReason}
    ensures !PiiMatch(Normalize(userInput)) && !AnyKeyword(AddressKeywords, Normalize(userInput)) ==>
      ValidPrompt(userInput).reason == InvestmentReason
  {
    KeywordsTrimmed(InvestmentKeywords, k);
    KeywordFound(userInput, InvestmentKeywords[k]);
  }

  /**
   * An input holding a harm keyword, in any letter case, is refused; the reason
   * is the harm one unless an earlier rule already matched.
   */
  lemma HarmKeywordRejected(userInput: string, k: nat)
    requires k < |HarmKeywords| && Contains(Lower(userInput), HarmKeywords[k])
    ensures !ValidPrompt(userInput).ok
    ensures !PiiMatch(Normalize(userInput)) && !AnyKeyword(AddressKeywords, Normalize(userInput)) &&
            !AnyKeyword(InvestmentKeywords, Normalize(userInput)) ==>
      ValidPrompt(userInput).reason == HarmReason
  {
    KeywordsTrimmed(HarmKeywords, k);
    KeywordFound(userInput, HarmKeywords[k]);
  }

  /** For a five-keyword list, `any(...)` is the disjunction of the five tests. */
  lemma AnyOfFive(kws: seq<string>, t: string)
    requires |kws| == 5
    ensures AnyKeyword(kws, t) <==>
      Contains(t, kws[0]) || Contains(t, kws[1]) || Contains(t, kws[2]) ||
      Contains(t, kws[3]) || Contains(t, kws[4])
  {
    if AnyKeyword(kws, t) {
      var k :| 0 <= k < |kws| && Contains(t, kws[k]);
      assert k == 0 || k == 1 || k == 2 || k == 3 || k == 4;
    }
  }

  /** Whatever holds `q` at offset `i` of `p` holds `q` wherever it holds `p`. */
  lemma Subsumes(t: string, p: string, q: string, i: nat)
    requires OccursAt(p, q, i) && Contains(t, p)
    ensures Contains(t, q)
  {
    ContainsAt(p, q, i);
    ContainsTrans(t, p, q);
  }

  /**
   * "home address" adds nothing to the address list, and "which stock" nothing
   * to the investment list: each holds another keyword of its list.
   */
  lemma RedundantKeywords(t: string)
    ensures AnyKeyword(AddressKeywords, t) <==>
      Contains(t, "address") || Contains(t, "phone number") ||
      Contains(t, "mobile number") || Contains(t, "contact number")
    ensures AnyKeyword(InvestmentKeywords, t) <==>
      Contains(t, "should i buy") || Contains(t, "stock") ||
      Contains(t, "buy shares") || Contains(t, "investment advice")
  {
    AnyOfFive(AddressKeywords, t);
    AnyOfFive(InvestmentKeywords, t);
    if Contains(t, "home address") {
      assert "home address"[5..12] == "address";
      Subsumes(t, "home address", "address", 5);
    }
    if Contains(t, "which stock") {
      assert "which stock"[6..11] == "stock";
      Subsumes(t, "which stock", "stock", 6);
    }
  }

  /** Text whose digits all lie within fewer than seven places holds no phone number and no social-security number. */
  lemma FewDigits(t: string, lo: int, hi: int)
    requires forall k :: 0 <= k < |t| && IsDigit(t[k]) ==> lo <= k < hi
    requires hi <= lo + 6
    ensures !PhoneMatch(t) && !SsnMatch(t)
  {
    forall i | 0 <= i < |t| ensures !PhoneAt(t, i) && !SsnAt(t, i) {
      assert DigitsAt(t, i, 3) ==> IsDigit(t[i]);
      assert DigitsAt(t, i + 3, 4) ==> IsDigit(t[i + 6]);
      assert DigitsAt(t, i + 4, 4) ==> IsDigit(t[i + 7]);
      assert DigitsAt(t, i + 7, 4) ==> IsDigit(t[i + 10]);
    }
  }

  const RatedPowerQuestion := "What is the rated power of the XR-220?"
  const StockQuestion := "What stock should I buy?"

  lemma RatedPowerNormalized()
    ensures Normalize(RatedPowerQuestion) == "what is the rated power of the xr-220?"
  {
    var t := "what is the rated power of the xr-220?";
    assert Lower(RatedPowerQuestion) == t;
    StripTrimmed(t);
  }

  lemma RatedPowerNoPii()
    ensures !PiiMatch("what is the rated power of the xr-220?")
  {
    var t := "what is the rated power of the xr-220?";
    assert forall k :: 0 <= k < |t| && IsDigit(t[k]) ==> 34 <= k < 37;
    FewDigits(t, 34, 37);
    assert '@' !in t;
  }

  /** No keyword of `kws` occurs in `t` when each one holds a character `cs[k]` that `t` lacks. */
  lemma AbsentByChars(kws: seq<string>, t: string, cs: seq<char>)
    requires |cs| == |kws|
    requires forall k :: 0 <= k < |kws| ==> cs[k] in kws[k] && cs[k] !in t
    ensures !AnyKeyword(kws, t)
  {
    forall k | 0 <= k < |kws| ensures !Contains(t, kws[k]) {
      MissingChar(t, kws[k], cs[k]);
    }
  }

  /** `any(...)` over a list tests its head, then its tail. */
  lemma AnyKeywordCons(kws: seq<string>, t: string)
    requires |kws| > 0
    ensures AnyKeyword(kws, t) <==> Contains(t, kws[0]) || AnyKeyword(kws[1..], t)
  {
    if AnyKeyword(kws, t) && !Contains(t, kws[0]) {
      var k :| 0 <= k < |kws| && Contains(t, kws[k]);
      assert kws[1..][k - 1] == kws[k];
    }
    if AnyKeyword(kws[1..], t) {
      var k :| 0 <= k < |kws| - 1 && Contains(t, kws[1..][k]);
      assert kws[1..][k] == kws[k + 1];
    }
  }

  lemma RatedPowerNoAddressWord()
    ensures !Contains("what is the rated power of the xr-220?", AddressKeywords[0])
  {
    MissingPair("what is the rated power of the xr-220?", "address", 1);
  }

  lemma RatedPowerNoOtherAddressKeyword()
    ensures !AnyKeyword(AddressKeywords[1..], "what is the rated power of the xr-220?")
  {
    assert AddressKeywords[1..] == ["home address", "phone number", "mobile number", "contact number"];
    AbsentByChars(AddressKeywords[1..], "what is the rated power of the xr-220?", "mbmm");
  }

  lemma RatedPowerNoAddressKeyword()
    ensures !AnyKeyword(AddressKeywords, "what is the rated power of the xr-220?")
  {
    RatedPowerNoAddressWord();
    RatedPowerNoOtherAddressKeyword();
    AnyKeywordCons(AddressKeywords, "what is the rated power of the xr-220?");
  }

  lemma RatedPowerNoInvestmentKeyword()
    ensures !AnyKeyword(InvestmentKeywords, "what is the rated power of the xr-220?")
  {
    AbsentByChars(InvestmentKeywords, "what is the rated power of the xr-220?", "bcbmc");
  }

  lemma RatedPowerNoHarmKeyword()
    ensures !AnyKeyword(HarmKeywords, "what is the rated power of the xr-220?")
  {
    AbsentByChars(HarmKeywords, "what is the rated power of the xr-220?", "cllbl");
  }

  /** The question "What is the rated power of the XR-220?" is admitted. */
  lemma RatedPowerQuestionAdmitted()
    ensures ValidPrompt(RatedPowerQuestion) == Verdict(true, AdmittedReason)
  {
    RatedPowerNormalized();
    RatedPowerNoPii();
    RatedPowerNoAddressKeyword();
    RatedPowerNoInvestmentKeyword();
    RatedPowerNoHarmKeyword();
  }

  lemma StockNormalized()
    ensures Normalize(StockQuestion) == "what stock should i buy?"
  {
    var t := "what stock should i buy?";
    assert Lower(StockQuestion) == t;
    StripTrimmed(t);
  }

  lemma StockNoPii()
    ensures !PiiMatch("what stock should i buy?")
  {
    var t := "what stock should i buy?";
    assert forall k :: 0 <= k < |t| ==> !IsDigit(t[k]);
    FewDigits(t, 0, 0);
  }

  lemma StockNoAddressKeyword()
    ensures !AnyKeyword(AddressKeywords, "what stock should i buy?")
  {
    AbsentByChars(AddressKeywords, "what stock should i buy?", "rmpmn");
  }

  lemma StockHasInvestmentKeyword()
    ensures AnyKeyword(InvestmentKeywords, "what stock should i buy?")
  {
    var t := "what stock should i buy?";
    assert t[5..10] == "stock";
    ContainsAt(t, "stock", 5);
    assert InvestmentKeywords[1] == "stock";
  }

  /** The question "What stock should I buy?" is refused as investment advice. */
  lemma StockQuestionRefused()
    ensures ValidPrompt(StockQuestion) == Verdict(false, InvestmentReason)
  {
    StockNormalized();
    StockNoPii();
    StockNoAddressKeyword();
    StockHasInvestmentKeyword();
  }
}

/** Fraud evidence about one message. Authentication headers arrive already parsed. */
module Verifier {
  import opened Common
  import opened Text

  datatype HardFail = PromptInjection | LookalikeSenderDomain | PaymentMethodMismatch | LinkDomainMismatch

  datatype SoftFlag = ReplyToMismatch

  // For each header: does it pass and align with the visible sender, and does it carry its own "=pass".
  datatype Auth = Auth(
    dmarcAligned: bool, spfAligned: bool, dkimAligned: bool,
    dmarcPass: bool, spfPass: bool, dkimPass: bool)

  const NO_AUTH := Auth(false, false, false, false, false, false)

  datatype VerifierInput = VerifierInput(
    fromAddr: string,
    replyTo: Option<string>,
    auth: Auth,
    knownSenders: seq<string>,
    knownKeys: seq<string>,
    extractedKeys: seq<string>,
    linkDomains: seq<string>,
    injectionDetected: bool)

  datatype Verification = Verification(
    authPassed: bool, hardFails: seq<HardFail>, softFlags: seq<SoftFlag>, score: int, unverified: bool)

  // Whatever stands between the first and the second @.
  function DomainOf(address: string): string {
    var k := IndexOf(address, '@');
    if k == |address| then ""
    else
      var rest := address[k + 1..];
      Lower(rest[..IndexOf(rest, '@')])
  }

  predicate EndsWith(s: string, suffix: string) {
    |suffix| <= |s| && s[|s| - |suffix|..] == suffix
  }

  // Separators are dropped, and digits that pass for letters replaced by them.
  function FoldChar(c: char): string {
    if c == '.' || c == '_' || c == '-' then ""
    else if c == '1' then "l"
    else if c == '0' then "o"
    else [c]
  }

  function Squeeze(s: string): string {
    if s == "" then "" else FoldChar(s[0]) + Squeeze(s[1..])
  }

  function CompactDomain(domain: string): string {
    if EndsWith(Lower(domain), ".com") then Squeeze(domain[..|domain| - 4]) else Squeeze(domain)
  }

  predicate AuthPassed(auth: Auth) {
    auth.dmarcAligned || (auth.spfAligned && auth.dkimAligned)
  }

  predicate SenderIsKnown(input: VerifierInput) {
    exists k | 0 <= k < |input.knownSenders| :: Lower(input.knownSenders[k]) == Lower(input.fromAddr)
  }

  predicate DomainIsKnown(input: VerifierInput) {
    exists k | 0 <= k < |input.knownSenders| :: DomainOf(input.knownSenders[k]) == DomainOf(input.fromAddr)
  }

  predicate Imitates(input: VerifierInput) {
    exists k | 0 <= k < |input.knownSenders| ::
      CompactDomain(DomainOf(input.knownSenders[k])) == CompactDomain(DomainOf(input.fromAddr))
  }

  predicate LeavesTheDomain(input: VerifierInput) {
    exists k | 0 <= k < |input.linkDomains| :: !EndsWith(Lower(input.linkDomains[k]), DomainOf(input.fromAddr))
  }

  predicate NewRail(input: VerifierInput) {
    exists k | 0 <= k < |input.extractedKeys| :: input.extractedKeys[k] !in input.knownKeys
  }

  // When a flag is raised. A new rail matters only for a sender already known.
  predicate Raises(input: VerifierInput, fail: HardFail) {
    match fail
    case PromptInjection => input.injectionDetected
    case LookalikeSenderDomain => !DomainIsKnown(input) && Imitates(input)
    case PaymentMethodMismatch => SenderIsKnown(input) && NewRail(input)
    case LinkDomainMismatch => LeavesTheDomain(input)
  }

  predicate RepliesElsewhere(input: VerifierInput) {
    input.replyTo.Some? && input.replyTo.value != "" && Lower(input.replyTo.value) != Lower(input.fromAddr)
  }

  function Flag<T>(condition: bool, flag: T): seq<T> {
    if condition then [flag] else []
  }

  function Raised(input: VerifierInput, fail: HardFail): seq<HardFail> {
    Flag(Raises(input, fail), fail)
  }

  function Verified(input: VerifierInput): Verification {
    Verification(
      AuthPassed(input.auth),
      Raised(input, PromptInjection) + Raised(input, LookalikeSenderDomain)
      + Raised(input, PaymentMethodMismatch) + Raised(input, LinkDomainMismatch),
      if RepliesElsewhere(input) then [ReplyToMismatch] else [],
      if RepliesElsewhere(input) then 90 else 100,
      false)
  }

  method VerifyEmail(input: VerifierInput) returns (verification: Verification)
    ensures verification == Verified(input)
  {
    var hardFails := Flag(input.injectionDetected, PromptInjection);
    var lookalike := |input.knownSenders| > 0 && !DomainIsKnown(input) && Imitates(input);
    hardFails := hardFails + Flag(lookalike, LookalikeSenderDomain);
    var softFlags := Flag(RepliesElsewhere(input), ReplyToMismatch);
    hardFails := hardFails + Flag(SenderIsKnown(input) && NewRail(input), PaymentMethodMismatch);
    hardFails := hardFails + Flag(LeavesTheDomain(input), LinkDomainMismatch);
    var score := 100 - |softFlags| * 10;
    verification := Verification(AuthPassed(input.auth), hardFails, softFlags, if score < 0 then 0 else score, false);
  }

  /** Each flag is reported exactly when its condition holds. */
  lemma HardFailIff(input: VerifierInput, fail: HardFail)
    ensures fail in Verified(input).hardFails <==> Raises(input, fail)
  {
    assert fail in Verified(input).hardFails <==>
      || fail in Raised(input, PromptInjection) || fail in Raised(input, LookalikeSenderDomain)
      || fail in Raised(input, PaymentMethodMismatch) || fail in Raised(input, LinkDomainMismatch);
  }

  // ------------------------------------------------ the evidence, from the message itself

  /** The domain is the text between the first @ and the next, in lower case. */
  lemma DomainMeans(user: string, domain: string, rest: string)
    requires '@' !in user && '@' !in domain && (rest == "" || rest[0] == '@')
    ensures DomainOf(user + "@" + domain + rest) == Lower(domain)
    ensures DomainOf(user) == ""
  {
    var address := user + "@" + domain + rest;
    assert address[..|user|] == user && address[|user|] == '@';
    IndexOfIs(address, '@', |user|);
    var tail := address[|user| + 1..];
    assert tail == domain + rest && tail[..|domain|] == domain;
    if rest != "" {
      IndexOfIs(tail, '@', |domain|);
    } else {
      assert tail == domain;
    }
  }

  // What one character leaves of a domain when look-alikes are folded together.
  predicate Leaves(c: char, left: string) {
    if c in {'.', '_', '-'} then left == ""
    else if c == '1' then left == "l"
    else if c == '0' then left == "o"
    else left == [c]
  }

  lemma Associative(a: string, b: string, c: string)
    ensures a + (b + c) == (a + b) + c
  {}

  lemma {:induction false} SqueezeSplits(a: string, b: string)
    ensures Squeeze(a + b) == Squeeze(a) + Squeeze(b)
  {
    if a == "" {
      assert a + b == b;
    } else {
      SqueezeSplits(a[1..], b);
      assert (a + b)[0] == a[0] && (a + b)[1..] == a[1..] + b;
      Associative(FoldChar(a[0]), Squeeze(a[1..]), Squeeze(b));
    }
  }

  /** Compacting works character by character, after dropping one ".com". */
  lemma CompactMeans(a: string, c: char, b: string)
    ensures Squeeze("") == "" && Leaves(c, Squeeze([c]))
        && Squeeze(a + [c] + b) == Squeeze(a) + Squeeze([c]) + Squeeze(b)
  {
    SqueezeSplits(a + [c], b);
    SqueezeSplits(a, [c]);
    assert [c][1..] == "";
  }

  lemma ComMeans(domain: string, tail: string)
    ensures Lower(tail) == ".com" ==> CompactDomain(domain + tail) == Squeeze(domain)
    ensures (forall front, end :: domain == front + end ==> Lower(end) != ".com") ==>
        CompactDomain(domain) == Squeeze(domain)
  {
    if Lower(tail) == ".com" {
      assert |Lower(tail)| == |tail| == 4;
      var whole := domain + tail;
      assert Lower(whole)[|whole| - 4..] == Lower(tail);
      assert whole[..|whole| - 4] == domain;
    }
    if EndsWith(Lower(domain), ".com") {
      assert domain == domain[..|domain| - 4] + domain[|domain| - 4..];
      assert Lower(domain[|domain| - 4..]) == Lower(domain)[|domain| - 4..];
    }
  }

  ghost predicate Under(name: string, domain: string) {
    exists front :: name == front + domain
  }

  lemma EndsWithMeans(s: string, suffix: string)
    ensures EndsWith(s, suffix) <==> exists front :: s == front + suffix
  {
    if EndsWith(s, suffix) {
      assert s == s[..|s| - |suffix|] + suffix;
    }
  }

  lemma LookalikeMeans(input: VerifierInput)
    ensures LookalikeSenderDomain in Verified(input).hardFails <==>
            && (forall a :: a in input.knownSenders ==> DomainOf(a) != DomainOf(input.fromAddr))
            && exists a :: a in input.knownSenders
                           && CompactDomain(DomainOf(a)) == CompactDomain(DomainOf(input.fromAddr))
  {
    HardFailIff(input, LookalikeSenderDomain);
  }

  lemma MismatchMeans(input: VerifierInput)
    ensures PaymentMethodMismatch in Verified(input).hardFails <==>
            && (exists a :: a in input.knownSenders && Lower(a) == Lower(input.fromAddr))
            && exists key :: key in input.extractedKeys && key !in input.knownKeys
  {
    HardFailIff(input, PaymentMethodMismatch);
  }

  lemma LinkMeans(input: VerifierInput)
    ensures LinkDomainMismatch in Verified(input).hardFails <==>
            exists d :: d in input.linkDomains && !Under(Lower(d), DomainOf(input.fromAddr))
  {
    HardFailIff(input, LinkDomainMismatch);
    forall d
      ensures EndsWith(Lower(d), DomainOf(input.fromAddr)) <==> Under(Lower(d), DomainOf(input.fromAddr))
    {
      EndsWithMeans(Lower(d), DomainOf(input.fromAddr));
    }
  }

  /** What aligns, whether injection is flagged, and the soft flag and score, from the message itself. */
  lemma VerifierMeans(input: VerifierInput)
    ensures var v := Verified(input);
      && (v.authPassed <==> input.auth.dmarcAligned || (input.auth.spfAligned && input.auth.dkimAligned))
      && (PromptInjection in v.hardFails <==> input.injectionDetected)
      && (v.softFlags == if input.replyTo.Some? && input.replyTo.value != ""
                            && Lower(input.replyTo.value) != Lower(input.fromAddr) then [ReplyToMismatch] else [])
      && v.score == 100 - 10 * |v.softFlags| && !v.unverified
  {
    HardFailIff(input, PromptInjection);
  }

  function Rank(fail: HardFail): nat {
    match fail
    case PromptInjection => 0
    case LookalikeSenderDomain => 1
    case PaymentMethodMismatch => 2
    case LinkDomainMismatch => 3
  }

  ghost predicate Ranked(fails: seq<HardFail>, below: nat) {
    && (forall i :: 0 <= i < |fails| ==> Rank(fails[i]) < below)
    && forall i, j :: 0 <= i < j < |fails| ==> Rank(fails[i]) < Rank(fails[j])
  }

  lemma RankedMore(fails: seq<HardFail>, input: VerifierInput, fail: HardFail)
    requires Ranked(fails, Rank(fail))
    ensures Ranked(fails + Raised(input, fail), Rank(fail) + 1)
  {}

  /** Flags stand in the order of the checks, each once. */
  lemma FlagsInOrder(input: VerifierInput)
    ensures Ranked(Verified(input).hardFails, 4)
  {
    var first := Raised(input, PromptInjection);
    RankedMore(first, input, LookalikeSenderDomain);
    var second := first + Raised(input, LookalikeSenderDomain);
    RankedMore(second, input, PaymentMethodMismatch);
    RankedMore(second + Raised(input, PaymentMethodMismatch), input, LinkDomainMismatch);
  }
}

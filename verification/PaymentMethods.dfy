/** Payment rails: the one validation boundary, the canonical key, and its decoder. */
module PaymentMethods {
  import opened Common
  import opened Text

  datatype PaymentMethod =
    | Upi(vpa: string)
    | Bank(accountNumber: string, ifsc: string, beneficiaryName: Option<string>)

  const NON_UPI_EMAIL_DOMAINS: set<string> :=
    {"gmail.com", "yahoo.com", "outlook.com", "hotmail.com", "icloud.com", "example.com"}

  // [\w.-]
  predicate VpaChar(c: char) {
    IsDigit(c) || IsUpper(c) || IsLower(c) || c == '_' || c == '.' || c == '-'
  }

  predicate AllVpa(s: string) {
    forall i :: 0 <= i < |s| ==> VpaChar(s[i])
  }

  // [\w.-]{2,}@[a-zA-Z][\w.-]{1,} with its @ at k.
  predicate VpaAt(s: string, k: nat) {
    && 2 <= k && k + 3 <= |s|
    && AllVpa(s[..k])
    && (IsUpper(s[k + 1]) || IsLower(s[k + 1]))
    && AllVpa(s[k + 2..])
  }

  // No @ can occur besides the separator.
  predicate VpaPattern(s: string) {
    VpaAt(s, IndexOf(s, '@'))
  }

  predicate IfscPattern(s: string) {
    && |s| == 11
    && (forall i :: 0 <= i < 4 ==> IsUpper(s[i]))
    && s[4] == '0'
    && (forall i :: 5 <= i < 11 ==> IsUpper(s[i]) || IsDigit(s[i]))
  }

  predicate AccountPattern(s: string) {
    9 <= |s| <= 18 && forall i :: 0 <= i < |s| ==> IsDigit(s[i])
  }

  predicate UpiAccepted(vpa: string) {
    VpaPattern(vpa) && vpa[IndexOf(vpa, '@') + 1..] !in NON_UPI_EMAIL_DOMAINS
  }

  function NormalizeName(name: Option<string>): Option<string> {
    if name.Some? && name.value != "" then Some(Trim(name.value)) else None
  }

  function Normalize(method_: PaymentMethod): Option<PaymentMethod> {
    match method_
    case Upi(vpa) => if UpiAccepted(Lower(vpa)) then Some(Upi(Lower(vpa))) else None
    case Bank(account, ifsc, name) =>
      if AccountPattern(account) && IfscPattern(Upper(ifsc))
      then Some(Bank(account, Upper(ifsc), NormalizeName(name)))
      else None
  }

  // The same text in the resolver, the pipeline and the approval store.
  function CanonicalKey(normalized: PaymentMethod): string {
    match normalized
    case Upi(vpa) => "upi:" + vpa
    case Bank(account, ifsc, _) => "bank_neft:" + account + ":" + ifsc
  }

  function MethodKey(method_: PaymentMethod): Option<string> {
    var normalized := Normalize(method_);
    if normalized.None? then None else Some(CanonicalKey(normalized.value))
  }

  predicate StartsWith(s: string, prefix: string) {
    |prefix| <= |s| && s[..|prefix|] == prefix
  }

  // The bank pattern is case-insensitive throughout, prefix included; its digit
  // and IFSC groups are exactly what Normalize accepts.
  function Decode(value: string): Option<PaymentMethod> {
    if StartsWith(value, "upi:") then Normalize(Upi(value[4..]))
    else if StartsWith(Lower(value), "bank_neft:") then
      var rest := value[10..];
      var k := IndexOf(rest, ':');
      if k < |rest| then Normalize(Bank(rest[..k], rest[k + 1..], None)) else None
    else None
  }

  function SansName(m: PaymentMethod): PaymentMethod {
    if m.Bank? then m.(beneficiaryName := None) else m
  }

  lemma LowerTwice(s: string)
    ensures Lower(Lower(s)) == Lower(s)
  {}

  lemma UpperFixes(s: string)
    requires IfscPattern(s)
    ensures Upper(s) == s
  {}

  lemma NormalizeAgain(m: PaymentMethod)
    requires Normalize(m).Some?
    ensures Normalize(SansName(Normalize(m).value)) == Some(SansName(Normalize(m).value))
  {
    match m
    case Upi(vpa) => LowerTwice(vpa);
    case Bank(account, ifsc, name) => UpperFixes(Upper(ifsc));
  }

  predicate BlankName(m: PaymentMethod) {
    m.Bank? && m.beneficiaryName.Some? && m.beneficiaryName.value != "" && Trim(m.beneficiaryName.value) == ""
  }

  /**
   * Normalizing twice changes nothing, except exactly when a beneficiary name
   * consists of spaces: it is first emptied, then dropped.
   */
  lemma NormalizeIsIdempotentIff(m: PaymentMethod)
    requires Normalize(m).Some?
    ensures Normalize(Normalize(m).value) == Normalize(m) <==> !BlankName(m)
  {
    match m
    case Upi(vpa) => LowerTwice(vpa);
    case Bank(account, ifsc, name) =>
      UpperFixes(Upper(ifsc));
      if name.Some? { TrimTrims(name.value); }
  }

  lemma LowerBankKey(account: string, ifsc: string)
    requires AccountPattern(account)
    ensures StartsWith(Lower("bank_neft:" + account + ":" + ifsc), "bank_neft:")
    ensures !StartsWith("bank_neft:" + account + ":" + ifsc, "upi:")
  {
    var key := "bank_neft:" + account + ":" + ifsc;
    assert key[..10] == "bank_neft:";
    forall i | 0 <= i < 10
      ensures Lower(key)[i] == "bank_neft:"[i]
    {
      assert key[i] == key[..10][i];
    }
    assert key[0] == 'b';
    assert "upi:"[0] == 'u';
  }

  /** Decoding the stored key of a valid rail gives back that rail; only the beneficiary name is not stored. */
  lemma DecodeRoundTrip(m: PaymentMethod)
    requires Normalize(m).Some?
    ensures Decode(CanonicalKey(Normalize(m).value)) == Some(SansName(Normalize(m).value))
  {
    NormalizeAgain(m);
    match Normalize(m).value
    case Upi(vpa) =>
      assert ("upi:" + vpa)[4..] == vpa;
    case Bank(account, ifsc, name) =>
      var key := "bank_neft:" + account + ":" + ifsc;
      LowerBankKey(account, ifsc);
      var rest := key[10..];
      assert rest == account + ":" + ifsc;
      assert rest[..|account|] == account && rest[|account|] == ':';
      IndexOfIs(rest, ':', |account|);
      assert rest[|account| + 1..] == ifsc;
  }

  /** Two methods share a key exactly when they normalize to the same rail, whatever names come with it. */
  lemma KeysAreInjective(m: PaymentMethod, n: PaymentMethod)
    requires Normalize(m).Some? && Normalize(n).Some?
    ensures MethodKey(m) == MethodKey(n) <==> SansName(Normalize(m).value) == SansName(Normalize(n).value)
  {
    DecodeRoundTrip(m);
    DecodeRoundTrip(n);
  }

  /** Whatever text decodes, decodes to a normalized rail whose own key decodes to it again. */
  lemma DecodedIsCanonical(value: string)
    requires Decode(value).Some?
    ensures Normalize(Decode(value).value) == Decode(value)
    ensures Decode(CanonicalKey(Decode(value).value)) == Decode(value)
  {
    var m := if StartsWith(value, "upi:") then Upi(value[4..])
             else Bank(value[10..][..IndexOf(value[10..], ':')], value[10..][IndexOf(value[10..], ':') + 1..], None);
    assert Normalize(m) == Decode(value);
    NormalizeAgain(m);
    DecodeRoundTrip(m);
  }

  // ---------------------------------------------------- what is accepted, character by character

  predicate WordLike(s: string) {
    forall i :: 0 <= i < |s| ==>
      '0' <= s[i] <= '9' || 'A' <= s[i] <= 'Z' || 'a' <= s[i] <= 'z' || s[i] == '_' || s[i] == '.' || s[i] == '-'
  }

  predicate Letter(c: char) {
    'A' <= c <= 'Z' || 'a' <= c <= 'z'
  }

  predicate UserLike(user: string) {
    |user| >= 2 && WordLike(user)
  }

  predicate HandleLike(handle: string) {
    |handle| >= 2 && Letter(handle[0]) && WordLike(handle) && handle !in NON_UPI_EMAIL_DOMAINS
  }

  predicate UpiParts(vpa: string, user: string, handle: string) {
    vpa == user + "@" + handle && UserLike(user) && HandleLike(handle)
  }

  lemma SplitAt(s: string, k: nat)
    requires k < |s| && s[k] == '@'
    ensures s == s[..k] + "@" + s[k + 1..]
  {}

  lemma PatternHasParts(vpa: string, k: nat)
    requires VpaAt(vpa, k)
    ensures UserLike(vpa[..k])
    ensures |vpa[k + 1..]| >= 2 && Letter(vpa[k + 1..][0]) && WordLike(vpa[k + 1..])
  {
    assert AllVpa(vpa[..k]);
    HandleIsWord(vpa, k);
  }

  lemma HandleIsWord(vpa: string, k: nat)
    requires k + 3 <= |vpa| && Letter(vpa[k + 1]) && AllVpa(vpa[k + 2..])
    ensures WordLike(vpa[k + 1..])
  {
    assert vpa[k + 1..][1..] == vpa[k + 2..];
    WordFromLetter(vpa[k + 1..]);
  }

  lemma WordFromLetter(s: string)
    requires s != "" && Letter(s[0]) && AllVpa(s[1..])
    ensures WordLike(s)
  {
    forall i | 0 <= i < |s|
      ensures VpaChar(s[i])
    {
      if i > 0 { assert s[i] == s[1..][i - 1]; }
    }
  }

  lemma PartsAreAccepted(vpa: string, user: string, handle: string)
    requires UpiParts(vpa, user, handle)
    ensures UpiAccepted(vpa)
  {
    assert vpa[..|user|] == user && vpa[|user|] == '@' && '@' !in user;
    IndexOfIs(vpa, '@', |user|);
    assert vpa[|user| + 1..] == handle && vpa[|user| + 2..] == handle[1..];
  }

  /** A UPI address is two word-like parts around one @, the second starting with a letter and not an e-mail domain. */
  lemma UpiMeans(vpa: string)
    ensures UpiAccepted(vpa) <==> exists user, handle :: UpiParts(vpa, user, handle)
  {
    if UpiAccepted(vpa) {
      var k := IndexOf(vpa, '@');
      PatternHasParts(vpa, k);
      SplitAt(vpa, k);
      assert UpiParts(vpa, vpa[..k], vpa[k + 1..]);
    }
    if user, handle :| UpiParts(vpa, user, handle) {
      PartsAreAccepted(vpa, user, handle);
    }
  }

  predicate Ifsc(code: string) {
    && |code| == 11 && code[4] == '0'
    && (forall i :: 0 <= i < 4 ==> Letter(code[i]))
    && (forall i :: 5 <= i < 11 ==> Letter(code[i]) || '0' <= code[i] <= '9')
  }

  predicate Account(digits: string) {
    9 <= |digits| <= 18 && forall i :: 0 <= i < |digits| ==> '0' <= digits[i] <= '9'
  }

  lemma IfscMeans(code: string)
    ensures IfscPattern(Upper(code)) <==> Ifsc(code)
  {
    if |code| == 11 {
      forall i | 0 <= i < 11
        ensures IsUpper(Upper(code)[i]) <==> Letter(code[i])
        ensures IsDigit(Upper(code)[i]) <==> '0' <= code[i] <= '9'
        ensures i == 4 ==> (Upper(code)[i] == '0' <==> code[i] == '0')
      {
        FoldingMeans(code, i);
      }
    }
  }

  /** What normalizing accepts and returns, and the key stored for it. */
  lemma NormalizeMeans(m: PaymentMethod)
    ensures Normalize(m) ==
            match m
            case Upi(vpa) => if exists user, handle :: UpiParts(Lower(vpa), user, handle) then Some(Upi(Lower(vpa)))
                else None
            case Bank(account, ifsc, name) =>
              if Account(account) && Ifsc(ifsc)
              then
                var kept := if name.Some? && name.value != "" then Some(Trim(name.value)) else None;
                Some(Bank(account, Upper(ifsc), kept))
              else None
    ensures MethodKey(m).Some? <==> Normalize(m).Some?
    ensures MethodKey(m).Some? ==>
            MethodKey(m).value ==
            match Normalize(m).value
            case Upi(vpa) => "upi:" + vpa
            case Bank(account, ifsc, _) => "bank_neft:" + account + ":" + ifsc
  {
    match m
    case Upi(vpa) => UpiMeans(Lower(vpa));
    case Bank(account, ifsc, name) => IfscMeans(ifsc);
  }

  predicate BankText(value: string, prefix: string, account: string, ifsc: string) {
    value == prefix + account + ":" + ifsc && Lower(prefix) == "bank_neft:" && ':' !in account
  }

  lemma DecodedHasForm(value: string, m: PaymentMethod)
    requires Decode(value) == Some(m)
    ensures if StartsWith(value, "upi:") then value == "upi:" + value[4..] && Normalize(Upi(value[4..])) == Some(m)
            else
              |value| >= 10 && var k := IndexOf(value[10..], ':');
              && k < |value[10..]|
              && BankText(value, value[..10], value[10..][..k], value[10..][k + 1..])
              && Normalize(Bank(value[10..][..k], value[10..][k + 1..], None)) == Some(m)
  {
    if !StartsWith(value, "upi:") {
      var prefix, rest := value[..10], value[10..];
      var k := IndexOf(rest, ':');
      assert Lower(prefix) == Lower(value)[..10];
      assert value == prefix + rest[..k] + ":" + rest[k + 1..];
    }
  }

  lemma BankTextDecodes(value: string, prefix: string, account: string, ifsc: string)
    requires BankText(value, prefix, account, ifsc)
    ensures Decode(value) == Normalize(Bank(account, ifsc, None))
  {
    assert |Lower(prefix)| == |prefix| == 10;
    assert Lower(value)[..10] == Lower(prefix);
    assert value[..10] == prefix;
    NotUpi(value, prefix);
    var rest := value[10..];
    assert rest == account + ":" + ifsc && rest[..|account|] == account && rest[|account|] == ':';
    IndexOfIs(rest, ':', |account|);
    assert rest[|account| + 1..] == ifsc;
  }

  /**
   * Stored text decodes to a rail exactly when it is one of the two printed forms
   * of something that normalizes to it.
   */
  lemma DecodeMeans(value: string, m: PaymentMethod)
    ensures Decode(value) == Some(m) <==>
            || (exists vpa :: value == "upi:" + vpa && Normalize(Upi(vpa)) == Some(m))
            || (exists prefix, account, ifsc :: BankText(value, prefix, account, ifsc)
                                                && Normalize(Bank(account, ifsc, None)) == Some(m))
  {
    if Decode(value) == Some(m) {
      DecodedHasForm(value, m);
    }
    if vpa :| value == "upi:" + vpa && Normalize(Upi(vpa)) == Some(m) {
      assert value[4..] == vpa;
    }
    if prefix, account, ifsc :|
      BankText(value, prefix, account, ifsc) && Normalize(Bank(account, ifsc, None)) == Some(m)
    {
      BankTextDecodes(value, prefix, account, ifsc);
    }
  }

  lemma NotUpi(value: string, prefix: string)
    requires |prefix| == 10 <= |value| && value[..10] == prefix && Lower(prefix) == "bank_neft:"
    ensures !StartsWith(value, "upi:")
  {
    FoldingMeans(prefix, 0);
    assert Lower(prefix)[0] == 'b' && prefix[0] == value[0];
    assert value[0] != 'u' && value[..4][0] == value[0];
    assert "upi:"[0] == 'u';
  }
}

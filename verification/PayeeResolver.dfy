/** Resolving sender and rail to an approved payee, and the list it is resolved against. */
module PayeeResolver {
  import opened Common
  import opened Text
  import opened PaymentMethods

  datatype Grant = Grant(
    autoPayEnabled: bool,
    approved: bool,
    perPaymentCapInr: Option<real>,
    totalCapInr: Option<real>,
    maxPayments: Option<nat>,
    expiresAt: Option<Time>)

  datatype ApprovedPayee = ApprovedPayee(
    payeeId: PayeeId,
    senderAddr: string,
    recipientNickname: string,
    paymentMethod: PaymentMethod,
    grant: Grant)

  datatype ResolveResult =
    | Resolved(payeeId: PayeeId, recipientNickname: string)
    | NewPayee
    | DetailsChanged(changedPayeeId: PayeeId, priorNickname: string)
    | UnknownSender(knownPayeeId: PayeeId, knownNickname: string)
    | IdentityMethodConflict(senderPayeeId: PayeeId, methodPayeeId: PayeeId)
    | MultiplePaymentMethods
    | InvalidPaymentMethod

  function FindSender(approved: seq<ApprovedPayee>, sender: string): Option<ApprovedPayee> {
    if approved == [] then None
    else if Lower(approved[0].senderAddr) == Lower(sender) then Some(approved[0])
    else FindSender(approved[1..], sender)
  }

  function FindMethod(approved: seq<ApprovedPayee>, key: string): Option<ApprovedPayee> {
    if approved == [] then None
    else if MethodKey(approved[0].paymentMethod) == Some(key) then Some(approved[0])
    else FindMethod(approved[1..], key)
  }

  function ResolvePayee(sender: string, paymentMethod: PaymentMethod, approved: seq<ApprovedPayee>): ResolveResult {
    var key := MethodKey(paymentMethod);
    if key.None? then InvalidPaymentMethod
    else
      match (FindSender(approved, sender), FindMethod(approved, key.value))
      case (Some(bySender), Some(byMethod)) =>
        if bySender.payeeId == byMethod.payeeId then Resolved(bySender.payeeId, bySender.recipientNickname)
        else IdentityMethodConflict(bySender.payeeId, byMethod.payeeId)
      case (Some(bySender), None) => DetailsChanged(bySender.payeeId, bySender.recipientNickname)
      case (None, Some(byMethod)) => UnknownSender(byMethod.payeeId, byMethod.recipientNickname)
      case (None, None) => NewPayee
  }

  lemma {:induction false} FindSenderIs(approved: seq<ApprovedPayee>, sender: string)
    ensures match FindSender(approved, sender)
      case None => forall a :: a in approved ==> Lower(a.senderAddr) != Lower(sender)
      case Some(a) => a in approved && Lower(a.senderAddr) == Lower(sender)
  {
    if approved != [] && Lower(approved[0].senderAddr) != Lower(sender) {
      FindSenderIs(approved[1..], sender);
    }
  }

  lemma {:induction false} FindMethodIs(approved: seq<ApprovedPayee>, key: string)
    ensures match FindMethod(approved, key)
      case None => forall a :: a in approved ==> MethodKey(a.paymentMethod) != Some(key)
      case Some(a) => a in approved && MethodKey(a.paymentMethod) == Some(key)
  {
    if approved != [] && MethodKey(approved[0].paymentMethod) != Some(key) {
      FindMethodIs(approved[1..], key);
    }
  }

  // ---------------------------------------------------- what resolving should mean

  ghost predicate OwnsSender(approved: seq<ApprovedPayee>, payee: PayeeId, nickname: string, sender: string) {
    exists a :: a in approved && a.payeeId == payee && a.recipientNickname == nickname
        && Lower(a.senderAddr) == Lower(sender)
  }

  ghost predicate OwnsMethod(approved: seq<ApprovedPayee>, payee: PayeeId, nickname: string, key: string) {
    exists a :: a in approved && a.payeeId == payee && a.recipientNickname == nickname
        && MethodKey(a.paymentMethod) == Some(key)
  }

  predicate SameOwner(a: ApprovedPayee, b: ApprovedPayee) {
    a.payeeId == b.payeeId && a.recipientNickname == b.recipientNickname
  }

  // Every case-folded sender, and every rail, belongs to one payee.
  ghost predicate SingleOwners(approved: seq<ApprovedPayee>) {
    && (forall a, b :: a in approved && b in approved && Lower(a.senderAddr) == Lower(b.senderAddr) ==> SameOwner(a, b))
    && (forall a, b :: a in approved && b in approved && MethodKey(a.paymentMethod) == MethodKey(b.paymentMethod) ==>
        SameOwner(a, b))
  }

  // The decision by ownership alone, with no list order in it.
  ghost predicate Means(approved: seq<ApprovedPayee>, sender: string, key: string, result: ResolveResult) {
    match result
    case Resolved(p, n) => OwnsSender(approved, p, n, sender) && exists m :: OwnsMethod(approved, p, m, key)
    case DetailsChanged(p, n) => OwnsSender(approved, p, n, sender) && forall q, m :: !OwnsMethod(approved, q, m, key)
    case UnknownSender(p, n) => OwnsMethod(approved, p, n, key) && forall q, m :: !OwnsSender(approved, q, m, sender)
    case IdentityMethodConflict(p, q) =>
      p != q && (exists n :: OwnsSender(approved, p, n, sender)) && exists m :: OwnsMethod(approved, q, m, key)
    case NewPayee => (forall q, m :: !OwnsSender(approved, q, m, sender))
        && forall q, m :: !OwnsMethod(approved, q, m, key)
    case _ => false
  }

  lemma ResolveMeans(sender: string, paymentMethod: PaymentMethod, approved: seq<ApprovedPayee>)
    requires MethodKey(paymentMethod).Some?
    ensures Means(approved, sender, MethodKey(paymentMethod).value, ResolvePayee(sender, paymentMethod, approved))
  {
    var key := MethodKey(paymentMethod).value;
    FindSenderIs(approved, sender);
    FindMethodIs(approved, key);
    var s, m := FindSender(approved, sender), FindMethod(approved, key);
    if s.Some? { assert OwnsSender(approved, s.value.payeeId, s.value.recipientNickname, sender); }
    if m.Some? { assert OwnsMethod(approved, m.value.payeeId, m.value.recipientNickname, key); }
  }

  /** A rail that does not normalize is reported as such, and no other rail is. */
  lemma InvalidRailIff(sender: string, paymentMethod: PaymentMethod, approved: seq<ApprovedPayee>)
    ensures ResolvePayee(sender, paymentMethod, approved) == InvalidPaymentMethod <==> Normalize(paymentMethod) == None
  {}

  lemma SenderOwnersAgree(approved: seq<ApprovedPayee>, sender: string, p: PayeeId, n: string, q: PayeeId, m: string)
    requires SingleOwners(approved)
    requires OwnsSender(approved, p, n, sender) && OwnsSender(approved, q, m, sender)
    ensures p == q && n == m
  {
    var a :| a in approved && a.payeeId == p && a.recipientNickname == n && Lower(a.senderAddr) == Lower(sender);
    var b :| b in approved && b.payeeId == q && b.recipientNickname == m && Lower(b.senderAddr) == Lower(sender);
    assert SameOwner(a, b);
  }

  lemma MethodOwnersAgree(approved: seq<ApprovedPayee>, key: string, p: PayeeId, n: string, q: PayeeId, m: string)
    requires SingleOwners(approved)
    requires OwnsMethod(approved, p, n, key) && OwnsMethod(approved, q, m, key)
    ensures p == q && n == m
  {
    var a :| a in approved && a.payeeId == p && a.recipientNickname == n && MethodKey(a.paymentMethod) == Some(key);
    var b :| b in approved && b.payeeId == q && b.recipientNickname == m && MethodKey(b.paymentMethod) == Some(key);
    assert SameOwner(a, b);
  }

  /** Ownership gives one answer at most. */
  lemma MeansIsSingleValued(
      approved: seq<ApprovedPayee>, sender: string, key: string, a: ResolveResult, b: ResolveResult)
    requires SingleOwners(approved) && Means(approved, sender, key, a) && Means(approved, sender, key, b)
    ensures a == b
  {
    if s, n, t, m :| OwnsSender(approved, s, n, sender) && OwnsMethod(approved, t, m, key) {
      forall p, k | OwnsSender(approved, p, k, sender) ensures p == s && k == n {
        SenderOwnersAgree(approved, sender, p, k, s, n);
      }
      forall p, k | OwnsMethod(approved, p, k, key) ensures p == t && k == m {
        MethodOwnersAgree(approved, key, p, k, t, m);
      }
    } else if s, n :| OwnsSender(approved, s, n, sender) {
      forall p, k | OwnsSender(approved, p, k, sender) ensures p == s && k == n {
        SenderOwnersAgree(approved, sender, p, k, s, n);
      }
    } else if t, m :| OwnsMethod(approved, t, m, key) {
      forall p, k | OwnsMethod(approved, p, k, key) ensures p == t && k == m {
        MethodOwnersAgree(approved, key, p, k, t, m);
      }
    }
  }

  /** Given single owners, the resolver returns a result exactly when ownership means it. */
  lemma ResolveIffMeans(
      sender: string, paymentMethod: PaymentMethod, approved: seq<ApprovedPayee>, result: ResolveResult)
    requires SingleOwners(approved) && MethodKey(paymentMethod).Some?
    ensures ResolvePayee(sender, paymentMethod, approved) == result <==>
            Means(approved, sender, MethodKey(paymentMethod).value, result)
  {
    var key := MethodKey(paymentMethod).value;
    ResolveMeans(sender, paymentMethod, approved);
    if Means(approved, sender, key, result) {
      MeansIsSingleValued(approved, sender, key, result, ResolvePayee(sender, paymentMethod, approved));
    }
  }

  // ------------------------------------------------------------ order independence

  ghost predicate OrderIndependent(approved: seq<ApprovedPayee>) {
    forall sender, paymentMethod, order :: Reordering(order, approved) ==>
      ResolvePayee(sender, paymentMethod, order) == ResolvePayee(sender, paymentMethod, approved)
  }

  ghost predicate ValidRails(approved: seq<ApprovedPayee>) {
    forall a :: a in approved ==> MethodKey(a.paymentMethod).Some?
  }

  function Fronted(approved: seq<ApprovedPayee>, k: nat): seq<ApprovedPayee>
    requires k < |approved|
  {
    [approved[k]] + approved[..k] + approved[k + 1..]
  }

  lemma FrontedReorders(approved: seq<ApprovedPayee>, k: nat)
    requires k < |approved|
    ensures Reordering(Fronted(approved, k), approved)
  {
    assert approved == approved[..k] + [approved[k]] + approved[k + 1..];
  }

  lemma MeansKept(a: seq<ApprovedPayee>, b: seq<ApprovedPayee>, sender: string, key: string, result: ResolveResult)
    requires Reordering(a, b) && Means(a, sender, key, result)
    ensures Means(b, sender, key, result)
  {
    SameMembers(a, b);
    assert forall p, n :: OwnsSender(a, p, n, sender) <==> OwnsSender(b, p, n, sender);
    assert forall p, n :: OwnsMethod(a, p, n, key) <==> OwnsMethod(b, p, n, key);
  }

  lemma SingleOwnersSuffice(approved: seq<ApprovedPayee>)
    requires SingleOwners(approved)
    ensures OrderIndependent(approved)
  {
    forall sender, paymentMethod, order | Reordering(order, approved)
      ensures ResolvePayee(sender, paymentMethod, order) == ResolvePayee(sender, paymentMethod, approved)
    {
      if MethodKey(paymentMethod).Some? {
        var result := ResolvePayee(sender, paymentMethod, order);
        ResolveMeans(sender, paymentMethod, order);
        MeansKept(order, approved, sender, MethodKey(paymentMethod).value, result);
        ResolveIffMeans(sender, paymentMethod, approved, result);
      }
    }
  }

  // A sender that nobody has: longer than all of them.
  function Stranger(approved: seq<ApprovedPayee>): (s: string)
    ensures forall a :: a in approved ==> |a.senderAddr| < |s|
  {
    if approved == [] then "x" else approved[0].senderAddr + Stranger(approved[1..])
  }

  lemma SharedSenderDepends(approved: seq<ApprovedPayee>, i: nat, j: nat)
    requires i < |approved| && j < |approved| && ValidRails(approved)
    requires Lower(approved[i].senderAddr) == Lower(approved[j].senderAddr) && !SameOwner(approved[i], approved[j])
    ensures !OrderIndependent(approved)
  {
    var sender, rail := approved[i].senderAddr, approved[i].paymentMethod;
    assert approved[i] in approved;
    FrontedReorders(approved, i);
    FrontedReorders(approved, j);
    assert ResolvePayee(sender, rail, Fronted(approved, i)) ==
        Resolved(approved[i].payeeId, approved[i].recipientNickname);
    assert FindSender(Fronted(approved, j), sender) == Some(approved[j]);
    assert ResolvePayee(sender, rail, Fronted(approved, j)) != ResolvePayee(sender, rail, Fronted(approved, i));
  }

  lemma SharedRailDepends(approved: seq<ApprovedPayee>, i: nat, j: nat)
    requires i < |approved| && j < |approved| && ValidRails(approved)
    requires MethodKey(approved[i].paymentMethod) == MethodKey(approved[j].paymentMethod)
        && !SameOwner(approved[i], approved[j])
    ensures !OrderIndependent(approved)
  {
    var sender, rail := Stranger(approved), approved[i].paymentMethod;
    assert approved[i] in approved;
    FrontedReorders(approved, i);
    FrontedReorders(approved, j);
    forall k | k == i || k == j
      ensures ResolvePayee(sender, rail, Fronted(approved, k)) ==
          UnknownSender(approved[k].payeeId, approved[k].recipientNickname)
    {
      var order := Fronted(approved, k);
      SameMembers(order, approved);
      FindSenderIs(order, sender);
      assert FindMethod(order, MethodKey(rail).value) == Some(approved[k]);
    }
  }

  /**
   * The answer is independent of the order rows happen to be loaded in exactly
   * when every sender and every rail has a single owner.
   */
  lemma OrderIndependentIffSingleOwners(approved: seq<ApprovedPayee>)
    requires ValidRails(approved)
    ensures OrderIndependent(approved) <==> SingleOwners(approved)
  {
    if SingleOwners(approved) {
      SingleOwnersSuffice(approved);
    } else if !(forall a, b :: a in approved && b in approved && Lower(a.senderAddr) == Lower(b.senderAddr) ==>
        SameOwner(a, b)) {
      var a, b :| a in approved && b in approved && Lower(a.senderAddr) == Lower(b.senderAddr) && !SameOwner(a, b);
      var i: nat :| i < |approved| && approved[i] == a;
      var j: nat :| j < |approved| && approved[j] == b;
      SharedSenderDepends(approved, i, j);
    } else {
      var a, b :| a in approved && b in approved && MethodKey(a.paymentMethod) == MethodKey(b.paymentMethod)
          && !SameOwner(a, b);
      var i: nat :| i < |approved| && approved[i] == a;
      var j: nat :| j < |approved| && approved[j] == b;
      SharedRailDepends(approved, i, j);
    }
  }

  // ------------------------------------------------------------------ loading the list

  datatype Identity = Identity(senderAddr: string, payeeId: PayeeId)

  // `rails` are the stored canonical keys of the active rails.
  datatype PayeeRow = PayeeRow(recipientNickname: string, grantApproved: bool, grant: Grant, rails: seq<string>)

  predicate Loadable(identities: seq<Identity>, payees: map<PayeeId, PayeeRow>) {
    forall identity :: identity in identities ==> identity.payeeId in payees
  }

  function RowsFor(identity: Identity, payee: PayeeRow, rails: seq<string>): Option<seq<ApprovedPayee>> {
    if rails == [] then Some([])
    else
      var before := RowsFor(identity, payee, rails[..|rails| - 1]);
      var decoded := Decode(rails[|rails| - 1]);
      if before.None? || decoded.None? then None
      else Some(before.value + [ApprovedPayee(identity.payeeId, identity.senderAddr, payee.recipientNickname,
          decoded.value, payee.grant)])
  }

  // None when a stored rail does not decode, which is thrown rather than skipped.
  function ApprovedRows(identities: seq<Identity>, payees: map<PayeeId, PayeeRow>): Option<seq<ApprovedPayee>>
    requires Loadable(identities, payees)
  {
    if identities == [] then Some([])
    else
      var last := identities[|identities| - 1];
      var before := ApprovedRows(identities[..|identities| - 1], payees);
      if before.None? then None
      else if !payees[last.payeeId].grantApproved then before
      else
        var rows := RowsFor(last, payees[last.payeeId], payees[last.payeeId].rails);
        if rows.None? then None else Some(before.value + rows.value)
  }

  method LoadApprovedPayees(identities: seq<Identity>, payees: map<PayeeId, PayeeRow>)
      returns (approved: Option<seq<ApprovedPayee>>)
    requires Loadable(identities, payees)
    ensures approved == ApprovedRows(identities, payees)
  {
    var rows: seq<ApprovedPayee> := [];
    for i := 0 to |identities|
      invariant ApprovedRows(identities[..i], payees) == Some(rows)
    {
      var identity := identities[i];
      assert identities[..i + 1][..i] == identities[..i];
      assert identity in identities && identities[..|identities|] == identities;
      var payee := payees[identity.payeeId];
      if !payee.grantApproved {
        continue;
      }
      ghost var before := rows;
      for j := 0 to |payee.rails|
        invariant RowsFor(identity, payee, payee.rails[..j]).Some?
        invariant rows == before + RowsFor(identity, payee, payee.rails[..j]).value
      {
        assert payee.rails[..j + 1][..j] == payee.rails[..j];
        var decoded := Decode(payee.rails[j]);
        if decoded.None? {
          UndecodableRail(identity, payee, j);
          UnloadableIdentity(identities, payees, i);
          return None;
        }
        rows := rows + [ApprovedPayee(identity.payeeId, identity.senderAddr, payee.recipientNickname, decoded.value,
            payee.grant)];
      }
      assert payee.rails[..|payee.rails|] == payee.rails;
    }
    assert identities[..|identities|] == identities;
    approved := Some(rows);
  }

  lemma {:induction false} UndecodableFrom(identity: Identity, payee: PayeeRow, rails: seq<string>, j: nat)
    requires j < |rails| && Decode(rails[j]).None?
    ensures RowsFor(identity, payee, rails).None?
  {
    if j < |rails| - 1 {
      UndecodableFrom(identity, payee, rails[..|rails| - 1], j);
    }
  }

  lemma UndecodableRail(identity: Identity, payee: PayeeRow, j: nat)
    requires j < |payee.rails| && Decode(payee.rails[j]).None?
    ensures RowsFor(identity, payee, payee.rails).None?
  {
    UndecodableFrom(identity, payee, payee.rails, j);
  }

  lemma {:induction false} UnloadableIdentity(identities: seq<Identity>, payees: map<PayeeId, PayeeRow>, i: nat)
    requires Loadable(identities, payees) && i < |identities|
    requires payees[identities[i].payeeId].grantApproved
    requires RowsFor(identities[i], payees[identities[i].payeeId], payees[identities[i].payeeId].rails).None?
    ensures ApprovedRows(identities, payees).None?
  {
    if i < |identities| - 1 {
      UnloadableIdentity(identities[..|identities| - 1], payees, i);
    }
  }

  // A list row is one identity of an approved payee together with one of its rails.
  ghost predicate FromTables(identities: seq<Identity>, payees: map<PayeeId, PayeeRow>, a: ApprovedPayee) {
    && Identity(a.senderAddr, a.payeeId) in identities && a.payeeId in payees
    && payees[a.payeeId].grantApproved && a.recipientNickname == payees[a.payeeId].recipientNickname
    && a.grant == payees[a.payeeId].grant
    && exists rail :: rail in payees[a.payeeId].rails && Decode(rail) == Some(a.paymentMethod)
  }

  ghost predicate FromRails(identity: Identity, payee: PayeeRow, rails: seq<string>, a: ApprovedPayee) {
    && a.payeeId == identity.payeeId && a.senderAddr == identity.senderAddr
    && a.recipientNickname == payee.recipientNickname && a.grant == payee.grant
    && exists rail :: rail in rails && Decode(rail) == Some(a.paymentMethod)
  }

  lemma FromMoreRails(identity: Identity, payee: PayeeRow, rails: seq<string>, last: string, a: ApprovedPayee)
    requires Decode(last).Some?
    ensures FromRails(identity, payee, rails + [last], a) <==>
            || FromRails(identity, payee, rails, a)
            || a == ApprovedPayee(identity.payeeId, identity.senderAddr, payee.recipientNickname, Decode(last).value,
                payee.grant)
  {
    assert last in rails + [last];
    assert forall rail :: rail in rails ==> rail in rails + [last];
  }

  lemma {:induction false} RowsForMembers(identity: Identity, payee: PayeeRow, rails: seq<string>, a: ApprovedPayee)
    requires RowsFor(identity, payee, rails).Some?
    ensures a in RowsFor(identity, payee, rails).value <==> FromRails(identity, payee, rails, a)
  {
    if rails != [] {
      var before, last := rails[..|rails| - 1], rails[|rails| - 1];
      assert rails == before + [last];
      RowsForMembers(identity, payee, before, a);
      FromMoreRails(identity, payee, before, last, a);
    }
  }

  /** The loaded list is exactly the product of approved identities and active rails. */
  lemma {:induction false} LoadedIsTheProduct(
      identities: seq<Identity>, payees: map<PayeeId, PayeeRow>, a: ApprovedPayee)
    requires Loadable(identities, payees) && ApprovedRows(identities, payees).Some?
    ensures a in ApprovedRows(identities, payees).value <==> FromTables(identities, payees, a)
  {
    if identities != [] {
      var last := identities[|identities| - 1];
      LoadedIsTheProduct(identities[..|identities| - 1], payees, a);
      assert identities == identities[..|identities| - 1] + [last];
      if payees[last.payeeId].grantApproved {
        RowsForMembers(last, payees[last.payeeId], payees[last.payeeId].rails, a);
      }
    }
  }

  // What the unique indexes give, if addresses differ by more than case, and
  // what the approval path writes: canonical keys, each stored once.
  ghost predicate TablesOk(identities: seq<Identity>, payees: map<PayeeId, PayeeRow>) {
    && Loadable(identities, payees)
    && (forall i, j :: i in identities && j in identities && Lower(i.senderAddr) == Lower(j.senderAddr) ==>
        i.payeeId == j.payeeId)
    && (forall p, rail :: p in payees && rail in payees[p].rails ==>
          Decode(rail).Some? && CanonicalKey(Decode(rail).value) == rail)
    && (forall p, q, rail :: p in payees && q in payees && rail in payees[p].rails && rail in payees[q].rails ==>
        p == q)
  }

  lemma {:induction false} RailsLoad(identity: Identity, payee: PayeeRow, rails: seq<string>)
    requires forall rail :: rail in rails ==> Decode(rail).Some?
    ensures RowsFor(identity, payee, rails).Some?
  {
    if rails != [] {
      RailsLoad(identity, payee, rails[..|rails| - 1]);
    }
  }

  lemma {:induction false} ListLoads(identities: seq<Identity>, payees: map<PayeeId, PayeeRow>)
    requires Loadable(identities, payees)
    requires forall p, rail :: p in payees && rail in payees[p].rails ==> Decode(rail).Some?
    ensures ApprovedRows(identities, payees).Some?
  {
    if identities != [] {
      var last := identities[|identities| - 1];
      ListLoads(identities[..|identities| - 1], payees);
      RailsLoad(last, payees[last.payeeId], payees[last.payeeId].rails);
    }
  }

  /** From tables in that state the list always loads, and resolving against it does not depend on row order. */
  lemma LoadedListResolvesUniquely(identities: seq<Identity>, payees: map<PayeeId, PayeeRow>)
    requires TablesOk(identities, payees)
    ensures ApprovedRows(identities, payees).Some?
    ensures SingleOwners(ApprovedRows(identities, payees).value)
        && OrderIndependent(ApprovedRows(identities, payees).value)
  {
    ListLoads(identities, payees);
    var approved := ApprovedRows(identities, payees).value;
    forall a, b | a in approved && b in approved
      ensures Lower(a.senderAddr) == Lower(b.senderAddr) ==> SameOwner(a, b)
      ensures MethodKey(a.paymentMethod) == MethodKey(b.paymentMethod) ==> SameOwner(a, b)
    {
      LoadedIsTheProduct(identities, payees, a);
      LoadedIsTheProduct(identities, payees, b);
      var r :| r in payees[a.payeeId].rails && Decode(r) == Some(a.paymentMethod);
      var q :| q in payees[b.payeeId].rails && Decode(q) == Some(b.paymentMethod);
      DecodedIsCanonical(r);
      DecodedIsCanonical(q);
    }
    SingleOwnersSuffice(approved);
  }
}

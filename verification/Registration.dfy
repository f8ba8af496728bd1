/** Webhook registration (internal/discovery/service.go): a token is consumed first, then a partner is
    created or updated. Registrations run concurrently, so the look-up that decides between the two may
    be out of date when the write happens. */
module Registration {
  import opened Basics
  import opened Crypto
  import opened Tokens

  // ----- the partner table (internal/repository/partner_repository.go) -----

  datatype PartnerRow = PartnerRow(
    partnerId: string, name: string, jwksUrl: string, messageEndpoint: string, receiptEndpoint: string, jwks: string)

  predicate HasPartner(t: seq<PartnerRow>, id: string) {
    exists k :: 0 <= k < |t| && t[k].partnerId == id
  }

  ghost predicate UniquePartners(t: seq<PartnerRow>) {
    forall k, l :: 0 <= k < l < |t| ==> t[k].partnerId != t[l].partnerId
  }

  function CreatePartner(t: seq<PartnerRow>, p: PartnerRow): Option<seq<PartnerRow>> {
    if p.partnerId == "" || p.name == "" || p.jwksUrl == "" || HasPartner(t, p.partnerId) then None
    else Some(t + [p])
  }

  function UpdatePartner(t: seq<PartnerRow>, p: PartnerRow): Option<seq<PartnerRow>> {
    if p.partnerId == "" || !HasPartner(t, p.partnerId) then None
    else Some(seq(|t|, k requires 0 <= k < |t| => if t[k].partnerId == p.partnerId then p else t[k]))
  }

  /** The capability list a partner advertised is no column, so a partner read back has none. */
  datatype LoadedPartner = LoadedPartner(row: PartnerRow, algorithms: seq<string>)

  function Load(t: seq<PartnerRow>, id: string): Option<LoadedPartner> {
    if t == [] then None
    else if t[0].partnerId == id then Some(LoadedPartner(t[0], []))
    else Load(t[1..], id)
  }

  /** Creating fails exactly without an id, a name or a key address, or under a taken id, and else adds the row. */
  lemma CreatePartnerExactly(t: seq<PartnerRow>, p: PartnerRow)
    ensures CreatePartner(t, p)
         == if "" in [p.partnerId, p.name, p.jwksUrl] || exists k :: 0 <= k < |t| && t[k].partnerId == p.partnerId
            then None else Some(t + [p])
  {
  }

  /** Updating fails exactly for an id that is empty or not there, and else replaces that partner's row. */
  lemma UpdatePartnerExactly(t: seq<PartnerRow>, p: PartnerRow)
    ensures UpdatePartner(t, p).Some?
       <==> p.partnerId != "" && exists k :: 0 <= k < |t| && t[k].partnerId == p.partnerId
    ensures UpdatePartner(t, p).Some? ==>
              var u := UpdatePartner(t, p).value;
              |u| == |t| && forall k :: 0 <= k < |t| ==> u[k] == if t[k].partnerId == p.partnerId then p else t[k]
  {
  }

  /** Reading back finds a partner exactly if there is a row for it, and without a capability list. */
  lemma {:induction false} LoadExactly(t: seq<PartnerRow>, id: string)
    ensures Load(t, id).None? <==> forall k :: 0 <= k < |t| ==> t[k].partnerId != id
    ensures Load(t, id).Some? ==>
              Load(t, id).value.row in t && Load(t, id).value.row.partnerId == id && Load(t, id).value.algorithms == []
  {
    if t == [] {
    } else if t[0].partnerId == id {
    } else {
      LoadExactly(t[1..], id);
      assert forall k :: 0 < k < |t| ==> t[k] == t[1..][k - 1];
    }
  }

  // ----- one registration -----

  datatype Request = Request(
    nodeId: string, organization: string, jwksUri: string, messageEndpoint: string, receiptEndpoint: string,
    algorithms: seq<string>, token: string)

  /** The profile a registration asks for, with the keys fetched for it. */
  function RowOf(req: Request, jwks: string): PartnerRow {
    PartnerRow(req.nodeId, req.organization, req.jwksUri, req.messageEndpoint, req.receiptEndpoint, jwks)
  }

  datatype RegResult = TokenRejected | MissingFields | FetchFailed | StoreFailed | Updated | Created

  predicate Success(r: RegResult) {
    r == Updated || r == Created
  }

  /** What follows once the token has been accepted: the keys fetched, if any, and what the look-up saw. */
  function Proceed(t: seq<PartnerRow>, req: Request, jwks: Option<string>, seen: bool): (seq<PartnerRow>, RegResult) {
    if req.nodeId == "" || req.organization == "" || req.jwksUri == "" then (t, MissingFields)
    else if jwks.None? then (t, FetchFailed)
    else
      var p := RowOf(req, jwks.value);
      match (if seen then UpdatePartner(t, p) else CreatePartner(t, p))
      case None => (t, StoreFailed)
      case Some(u) => (u, if seen then Updated else Created)
  }

  class PartnerRepository {
    var rows: seq<PartnerRow>

    constructor ()
      ensures rows == []
    {
      rows := [];
    }

    method Create(p: PartnerRow) returns (ok: bool)
      modifies this
      ensures ok == CreatePartner(old(rows), p).Some?
      ensures rows == if ok then CreatePartner(old(rows), p).value else old(rows)
    {
      if p.partnerId == "" || p.name == "" || p.jwksUrl == "" || HasPartner(rows, p.partnerId) {
        return false;
      }
      rows := rows + [p];
      return true;
    }

    method Update(p: PartnerRow) returns (ok: bool)
      modifies this
      ensures ok == UpdatePartner(old(rows), p).Some?
      ensures rows == if ok then UpdatePartner(old(rows), p).value else old(rows)
    {
      if p.partnerId == "" || !HasPartner(rows, p.partnerId) {
        return false;
      }
      var t := rows;
      rows := seq(|t|, k requires 0 <= k < |t| => if t[k].partnerId == p.partnerId then p else t[k]);
      return true;
    }
  }

  class DiscoveryService {
    const tokenStore: TokenStore
    const partnerRepo: PartnerRepository

    constructor (tokenStore: TokenStore, partnerRepo: PartnerRepository)
      ensures this.tokenStore == tokenStore && this.partnerRepo == partnerRepo
    {
      this.tokenStore := tokenStore;
      this.partnerRepo := partnerRepo;
    }

    /** jwks is what fetching the request's jwks_uri gives. */
    method HandleWebhookRegistration(req: Request, jwks: Option<string>, now: int) returns (result: RegResult)
      modifies tokenStore, partnerRepo
      ensures tokenStore.tokens == Consume(old(tokenStore.tokens), req.token, now).0
      ensures if Consume(old(tokenStore.tokens), req.token, now).1
              then (partnerRepo.rows, result)
                   == Proceed(old(partnerRepo.rows), req, jwks, HasPartner(old(partnerRepo.rows), req.nodeId))
              else (partnerRepo.rows, result) == (old(partnerRepo.rows), TokenRejected)
    {
      var valid := tokenStore.ValidateAndConsume(req.token, now);
      if !valid {
        return TokenRejected;
      }
      if req.nodeId == "" || req.organization == "" || req.jwksUri == "" {
        return MissingFields;
      }
      if jwks.None? {
        return FetchFailed;
      }
      var partner := PartnerRow(
        req.nodeId, req.organization, req.jwksUri, req.messageEndpoint, req.receiptEndpoint, jwks.value);
      if HasPartner(partnerRepo.rows, req.nodeId) {
        var ok := partnerRepo.Update(partner);
        result := if ok then Updated else StoreFailed;
      } else {
        var ok := partnerRepo.Create(partner);
        result := if ok then Created else StoreFailed;
      }
    }
  }

  // ----- runs of interleaved registrations -----

  /** An accepted token and when it was accepted. */
  datatype Pass = Pass(token: string, at: int)

  /** A registration that is over, and the pass it ran on. */
  datatype Finished = Finished(slot: nat, result: RegResult)

  datatype State = State(
    tokens: Store, history: History, clock: int, partners: seq<PartnerRow>,
    passes: seq<Pass>, running: map<nat, Request>, finished: seq<Finished>)

  datatype Action =
    | IssueToken(token: string, expiresIn: int, at: int)
    | SweepTokens(at: int)
    | Begin(req: Request, at: int)
    | Finish(slot: nat, jwks: Option<string>, seen: bool)

  const INITIAL := State(map[], History(map[], {}), 0, [], [], map[], [])

  /** Begin consumes the token; Finish ends a running registration, with whatever its look-up saw. */
  function Step(s: State, a: Action): Option<State> {
    match a
    case IssueToken(token, expiresIn, at) =>
      if at < s.clock || token in s.history.issued then None
      else Some(s.(tokens := Issue(s.tokens, token, at + expiresIn), clock := at,
                   history := s.history.(issued := s.history.issued[token := at + expiresIn])))
    case SweepTokens(at) =>
      if at < s.clock then None else Some(s.(tokens := Sweep(s.tokens, at), clock := at))
    case Begin(req, at) =>
      if at < s.clock then None
      else
        var (tokens, ok) := Consume(s.tokens, req.token, at);
        if !ok then Some(s.(tokens := tokens, clock := at))
        else Some(s.(tokens := tokens, clock := at, passes := s.passes + [Pass(req.token, at)],
                     running := s.running[|s.passes| := req],
                     history := s.history.(accepted := s.history.accepted + {req.token})))
    case Finish(slot, jwks, seen) =>
      if slot !in s.running then None
      else
        var (partners, result) := Proceed(s.partners, s.running[slot], jwks, seen);
        Some(s.(partners := partners, running := s.running - {slot}, finished := s.finished + [Finished(slot, result)]))
  }

  function Run(s: State, actions: seq<Action>): Option<State>
    decreases |actions|
  {
    if actions == [] then Some(s)
    else
      match Step(s, actions[0])
      case None => None
      case Some(s') => Run(s', actions[1..])
  }

  /** The passes name different tokens, each issued and in time, and all burnt. */
  ghost predicate PassesOk(passes: seq<Pass>, history: History) {
    && (forall k, l :: 0 <= k < l < |passes| ==> passes[k].token != passes[l].token)
    && (forall k :: 0 <= k < |passes| ==>
          passes[k].token in history.accepted && passes[k].token in history.issued
          && passes[k].at <= history.issued[passes[k].token])
  }

  /** Every registration, running or over, has a pass of its own. */
  ghost predicate SlotsOk(passes: seq<Pass>, running: map<nat, Request>, finished: seq<Finished>) {
    && (forall n :: n in running ==> n < |passes|)
    && (forall k :: 0 <= k < |finished| ==> finished[k].slot < |passes| && finished[k].slot !in running)
    && (forall k, l :: 0 <= k < l < |finished| ==> finished[k].slot != finished[l].slot)
    && |finished| + |running| == |passes|
  }

  function CreatedCount(finished: seq<Finished>): nat {
    if finished == [] then 0
    else CreatedCount(finished[..|finished| - 1]) + if finished[|finished| - 1].result == Created then 1 else 0
  }

  ghost predicate PartnersOk(partners: seq<PartnerRow>, finished: seq<Finished>) {
    UniquePartners(partners) && |partners| == CreatedCount(finished)
  }

  ghost predicate Inv(s: State) {
    && Remembers(s.tokens, s.history, s.clock)
    && PassesOk(s.passes, s.history)
    && SlotsOk(s.passes, s.running, s.finished)
    && PartnersOk(s.partners, s.finished)
  }

  lemma {:induction false} CreatedAtMostAll(finished: seq<Finished>)
    ensures CreatedCount(finished) <= |finished|
  {
    if finished == [] {
    } else {
      CreatedAtMostAll(finished[..|finished| - 1]);
    }
  }

  lemma BeginKeepsInv(s: State, req: Request, at: int)
    requires Inv(s) && at >= s.clock
    ensures Inv(Step(s, Begin(req, at)).value)
  {
    hide PartnersOk;
    ConsumeAsPromised(s.tokens, s.history, req.token, s.clock, at);
    hide Remembers, Consume;
    var s' := Step(s, Begin(req, at)).value;
    if |s'.passes| > |s.passes| {
      assert s'.running.Keys == s.running.Keys + {|s.passes|};
      assert s'.passes[|s.passes|] == Pass(req.token, at);
    }
  }

  lemma FinishKeepsPartners(
    partners: seq<PartnerRow>, finished: seq<Finished>, slot: nat, req: Request, jwks: Option<string>, seen: bool)
    requires PartnersOk(partners, finished)
    ensures var (u, result) := Proceed(partners, req, jwks, seen); PartnersOk(u, finished + [Finished(slot, result)])
  {
    var (u, result) := Proceed(partners, req, jwks, seen);
    assert (finished + [Finished(slot, result)])[..|finished|] == finished;
  }

  lemma FinishKeepsSlots(
    passes: seq<Pass>, running: map<nat, Request>, finished: seq<Finished>, slot: nat, result: RegResult)
    requires SlotsOk(passes, running, finished) && slot in running
    ensures SlotsOk(passes, running - {slot}, finished + [Finished(slot, result)])
  {
    assert (running - {slot}).Keys == running.Keys - {slot};
  }

  lemma FinishKeepsInv(s: State, slot: nat, jwks: Option<string>, seen: bool)
    requires Inv(s) && slot in s.running
    ensures Inv(Step(s, Finish(slot, jwks, seen)).value)
  {
    hide Remembers, PassesOk, SlotsOk, PartnersOk, Proceed;
    FinishKeepsPartners(s.partners, s.finished, slot, s.running[slot], jwks, seen);
    var (partners, result) := Proceed(s.partners, s.running[slot], jwks, seen);
    FinishKeepsSlots(s.passes, s.running, s.finished, slot, result);
  }

  lemma IssueKeepsInv(s: State, token: string, expiresIn: int, at: int)
    requires Inv(s) && at >= s.clock && token !in s.history.issued
    ensures Inv(Step(s, IssueToken(token, expiresIn, at)).value)
  {
    hide SlotsOk, PartnersOk, Issue;
    IssueRemembers(s.tokens, s.history, token, at + expiresIn, s.clock, at);
    hide Remembers;
  }

  lemma SweepKeepsInv(s: State, at: int)
    requires Inv(s) && at >= s.clock
    ensures Inv(Step(s, SweepTokens(at)).value)
  {
    hide PassesOk, SlotsOk, PartnersOk, Sweep, Remembers;
    SweepRemembers(s.tokens, s.history, s.clock, at);
  }

  lemma StepKeepsInv(s: State, a: Action)
    requires Inv(s) && Step(s, a).Some?
    ensures Inv(Step(s, a).value)
  {
    hide Inv;
    match a {
      case IssueToken(token, expiresIn, at) => IssueKeepsInv(s, token, expiresIn, at);
      case SweepTokens(at) => SweepKeepsInv(s, at);
      case Begin(req, at) => BeginKeepsInv(s, req, at);
      case Finish(slot, jwks, seen) => FinishKeepsInv(s, slot, jwks, seen);
    }
  }

  lemma {:induction false} RunKeepsInv(s: State, actions: seq<Action>)
    requires Inv(s) && Run(s, actions).Some?
    ensures Inv(Run(s, actions).value)
    decreases |actions|
  {
    if actions == [] {
    } else {
      StepKeepsInv(s, actions[0]);
      RunKeepsInv(Step(s, actions[0]).value, actions[1..]);
    }
  }

  /** Over every run, however registrations interleave and whatever their look-ups saw: there is one row
      per partner_id, and there are never more rows than accepted tokens. */
  lemma NoMorePartnersThanTokens(actions: seq<Action>)
    requires Run(INITIAL, actions).Some?
    ensures var s := Run(INITIAL, actions).value;
            UniquePartners(s.partners) && |s.partners| <= |s.passes|
  {
    RunKeepsInv(INITIAL, actions);
    CreatedAtMostAll(Run(INITIAL, actions).value.finished);
  }

  /** Every registration that got past its token check, still running or over, did so on a token that was
      issued and had not expired, and that token is refused for ever after. */
  lemma PassesBurnTheirTokens(actions: seq<Action>, k: nat, now: int)
    requires Run(INITIAL, actions).Some?
    requires k < |Run(INITIAL, actions).value.passes| && Run(INITIAL, actions).value.clock <= now
    ensures var s := Run(INITIAL, actions).value;
            var p := s.passes[k];
            && p.token in s.history.issued && p.at <= s.history.issued[p.token]
            && !Consume(s.tokens, p.token, now).1
  {
    RunKeepsInv(INITIAL, actions);
    var s := Run(INITIAL, actions).value;
    ConsumeAsPromised(s.tokens, s.history, s.passes[k].token, s.clock, now);
  }

  /** Every registration that is over, successful or not, ran on such a pass: its token was issued, had not
      expired when it was accepted, and is refused for ever after. */
  lemma RegistrationsBurnTheirTokens(actions: seq<Action>, k: nat, now: int)
    requires Run(INITIAL, actions).Some?
    requires k < |Run(INITIAL, actions).value.finished| && Run(INITIAL, actions).value.clock <= now
    ensures var s := Run(INITIAL, actions).value;
            && s.finished[k].slot < |s.passes|
            && var p := s.passes[s.finished[k].slot];
               && p.token in s.history.issued && p.at <= s.history.issued[p.token]
               && !Consume(s.tokens, p.token, now).1
  {
    RunKeepsInv(INITIAL, actions);
    PassesBurnTheirTokens(actions, Run(INITIAL, actions).value.finished[k].slot, now);
  }

  /** Different registrations ran on different tokens. */
  lemma OneRegistrationPerToken(actions: seq<Action>, k: nat, l: nat)
    requires Run(INITIAL, actions).Some?
    requires k < l < |Run(INITIAL, actions).value.finished|
    ensures var s := Run(INITIAL, actions).value;
            && s.finished[k].slot < |s.passes| && s.finished[l].slot < |s.passes|
            && s.passes[s.finished[k].slot].token != s.passes[s.finished[l].slot].token
  {
    RunKeepsInv(INITIAL, actions);
  }

  /** After its token check a registration succeeds exactly when its fields are there, its keys could be
      fetched and its look-up is still right; then the table holds its data under its node id, in place
      of what was there, and otherwise it is untouched. */
  lemma RegistrationTakesEffectExactly(t: seq<PartnerRow>, req: Request, jwks: Option<string>, seen: bool)
    requires UniquePartners(t)
    ensures var (u, r) := Proceed(t, req, jwks, seen);
            && (Success(r) <==> req.nodeId != "" && req.organization != "" && req.jwksUri != "" && jwks.Some?
                                && seen == HasPartner(t, req.nodeId))
            && r == (if "" in [req.nodeId, req.organization, req.jwksUri] then MissingFields
                     else if jwks.None? then FetchFailed
                     else if seen != HasPartner(t, req.nodeId) then StoreFailed
                     else if seen then Updated else Created)
            && (!Success(r) ==> u == t)
            && (Success(r) ==>
                  UniquePartners(u)
                  && forall p :: p in u <==>
                       (p in t && p.partnerId != req.nodeId)
                       || p == PartnerRow(req.nodeId, req.organization, req.jwksUri, req.messageEndpoint,
                                          req.receiptEndpoint, jwks.value))
  {
    var (u, r) := Proceed(t, req, jwks, seen);
    if Success(r) {
      var added := PartnerRow(
        req.nodeId, req.organization, req.jwksUri, req.messageEndpoint, req.receiptEndpoint, jwks.value);
      forall p | p in t && p.partnerId != req.nodeId ensures p in u {
        var k :| 0 <= k < |t| && t[k] == p;
        assert u[k] == p;
      }
      assert added in u by {
        if seen {
          var k :| 0 <= k < |t| && t[k].partnerId == req.nodeId;
          assert u[k] == added;
        } else {
          assert u[|t|] == added;
        }
      }
    }
  }

  /** A race that must fail: two registrations for one new partner both saw no row; the second write is
      refused by the unique key, and its token is gone all the same. */
  lemma RacingCreateFails(t: seq<PartnerRow>, first: Request, second: Request, jwks: Option<string>)
    requires !HasPartner(t, first.nodeId) && first.nodeId == second.nodeId != "" && jwks.Some?
    requires first.organization != "" && first.jwksUri != "" && second.organization != "" && second.jwksUri != ""
    ensures var (u, r) := Proceed(t, first, jwks, false);
            r == Created && Proceed(u, second, jwks, false) == (u, StoreFailed)
  {
    var u := Proceed(t, first, jwks, false).0;
    assert u[|t|].partnerId == second.nodeId;
  }

  /** Whatever a partner advertised when it registered, a document for it is encrypted with RSA-OAEP once
      the partner has been read back from the table. */
  lemma {:induction false} StoredPartnersNegotiateRsaOaep(t: seq<PartnerRow>, id: string)
    requires HasPartner(t, id)
    ensures Load(t, id).Some? && Negotiate(LOCAL_ALGORITHMS, Load(t, id).value.algorithms) == Ok(ALG_RSA_OAEP)
  {
    assert LOCAL_ALGORITHMS[0] == ALG_RSA_OAEP;
    if t[0].partnerId != id {
      var k :| 0 <= k < |t| && t[k].partnerId == id;
      assert t[1..][k - 1].partnerId == id;
      StoredPartnersNegotiateRsaOaep(t[1..], id);
    }
  }
}

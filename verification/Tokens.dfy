/** Single-use registration tokens (internal/discovery/tokens.go). */
module Tokens {
  datatype TokenData = TokenData(expiresAt: int, used: bool)

  type Store = map<string, TokenData>

  function Issue(s: Store, token: string, expiresAt: int): Store {
    s[token := TokenData(expiresAt, false)]
  }

  /** Validation marks the token used; an expired one is dropped on the way. */
  function Consume(s: Store, token: string, now: int): (Store, bool) {
    if token !in s then (s, false)
    else if now > s[token].expiresAt then (s - {token}, false)
    else if s[token].used then (s, false)
    else (s[token := s[token].(used := true)], true)
  }

  predicate Stale(d: TokenData, now: int) {
    now > d.expiresAt || d.used
  }

  function Sweep(s: Store, now: int): Store {
    map t | t in s && !Stale(s[t], now) :: s[t]
  }

  /** The store as the code keeps it, with a deleting sweep. */
  class TokenStore {
    var tokens: Store

    constructor ()
      ensures tokens == map[]
    {
      tokens := map[];
    }

    /** token is the new random text. */
    method GenerateToken(token: string, expiresIn: int, now: int)
      modifies this
      ensures tokens == Issue(old(tokens), token, now + expiresIn)
    {
      tokens := tokens[token := TokenData(now + expiresIn, false)];
    }

    method ValidateAndConsume(token: string, now: int) returns (valid: bool)
      modifies this
      ensures (tokens, valid) == Consume(old(tokens), token, now)
    {
      if token !in tokens {
        return false;
      }
      var data := tokens[token];
      if now > data.expiresAt {
        tokens := tokens - {token};
        return false;
      }
      if data.used {
        return false;
      }
      tokens := tokens[token := data.(used := true)];
      return true;
    }

    method CleanupExpiredTokens(now: int)
      modifies this
      ensures tokens == Sweep(old(tokens), now)
      ensures forall t :: t in tokens <==> t in old(tokens) && now <= old(tokens)[t].expiresAt && !old(tokens)[t].used
    {
      var rest := tokens.Keys;
      while rest != {}
        invariant rest <= old(tokens).Keys
        invariant tokens == map t | t in old(tokens) && (t in rest || !Stale(old(tokens)[t], now)) :: old(tokens)[t]
        decreases rest
      {
        var token :| token in rest;
        var data := tokens[token];
        if now > data.expiresAt || data.used {
          tokens := tokens - {token};
        }
        rest := rest - {token};
      }
    }
  }

  // ----- runs -----

  datatype Op =
    | Generate(token: string, expiresIn: int, at: int)
    | Validate(token: string, at: int)
    | Cleanup(at: int)

  /** The answers a run gives to its validations. */
  function Answers(s: Store, ops: seq<Op>): seq<bool>
    decreases |ops|
  {
    if ops == [] then []
    else
      match ops[0]
      case Generate(token, expiresIn, at) => Answers(Issue(s, token, at + expiresIn), ops[1..])
      case Validate(token, at) => var (s', ok) := Consume(s, token, at); [ok] + Answers(s', ops[1..])
      case Cleanup(at) => Answers(Sweep(s, at), ops[1..])
  }

  /** The specification: what was issued, until when, and what was accepted; nothing is ever deleted. */
  datatype History = History(issued: map<string, int>, accepted: set<string>)

  predicate Acceptable(h: History, token: string, now: int) {
    token in h.issued && now <= h.issued[token] && token !in h.accepted
  }

  function Promised(h: History, ops: seq<Op>): seq<bool>
    decreases |ops|
  {
    if ops == [] then []
    else
      match ops[0]
      case Generate(token, expiresIn, at) => Promised(h.(issued := h.issued[token := at + expiresIn]), ops[1..])
      case Validate(token, at) =>
        [Acceptable(h, token, at)]
        + Promised(if Acceptable(h, token, at) then h.(accepted := h.accepted + {token}) else h, ops[1..])
      case Cleanup(_) => Promised(h, ops[1..])
  }

  /** Clock readings do not go back, and new tokens are new. Both are needed: a sweep drops a token for
      good once it has expired, and issuing a token again would forget that it was used. */
  predicate Orderly(h: History, ops: seq<Op>, now: int)
    decreases |ops|
  {
    ops != [] ==>
      && now <= ops[0].at
      && (ops[0].Generate? ==> ops[0].token !in h.issued)
      && Orderly(if ops[0].Generate? then h.(issued := h.issued[ops[0].token := ops[0].at + ops[0].expiresIn]) else h,
                 ops[1..], ops[0].at)
  }

  /** The store holds what the history says, except for tokens that can no longer be accepted. */
  ghost predicate Remembers(s: Store, h: History, now: int) {
    && (forall t :: t in s ==> t in h.issued && s[t].expiresAt == h.issued[t] && (s[t].used <==> t in h.accepted))
    && (forall t :: t in h.issued && t !in s ==> now > h.issued[t] || t in h.accepted)
    && (forall t :: t in h.accepted ==> t in h.issued)
  }

  /** A validation answers as promised and keeps the store in step. */
  lemma ConsumeAsPromised(s: Store, h: History, token: string, before: int, now: int)
    requires Remembers(s, h, before) && before <= now
    ensures var (s', ok) := Consume(s, token, now);
            && ok == Acceptable(h, token, now)
            && Remembers(s', if ok then h.(accepted := h.accepted + {token}) else h, now)
  {
  }

  lemma SweepRemembers(s: Store, h: History, before: int, now: int)
    requires Remembers(s, h, before) && before <= now
    ensures Remembers(Sweep(s, now), h, now)
  {
  }

  /** A sweep is thorough: afterwards the store holds exactly the tokens that can still be accepted. */
  lemma SweptHoldsAcceptable(s: Store, h: History, before: int, now: int, token: string)
    requires Remembers(s, h, before) && before <= now
    ensures token in Sweep(s, now) <==> Acceptable(h, token, now)
    ensures token in Sweep(s, now) ==> Sweep(s, now)[token] == TokenData(h.issued[token], false)
  {
  }

  lemma IssueRemembers(s: Store, h: History, token: string, expiresAt: int, before: int, now: int)
    requires Remembers(s, h, before) && before <= now && token !in h.issued
    ensures Remembers(Issue(s, token, expiresAt), h.(issued := h.issued[token := expiresAt]), now)
  {
  }

  lemma OrderlyIgnoresAccepted(h: History, accepted: set<string>, ops: seq<Op>, now: int)
    requires Orderly(h, ops, now)
    ensures Orderly(h.(accepted := accepted), ops, now)
    decreases |ops|
  {
    if ops == [] {
    } else {
      var h' := if ops[0].Generate? then h.(issued := h.issued[ops[0].token := ops[0].at + ops[0].expiresIn]) else h;
      OrderlyIgnoresAccepted(h', accepted, ops[1..], ops[0].at);
    }
  }

  /** The store with its lazy deletes and its sweeps refines the history: over every orderly run, wherever
      sweeps fall, a validation says yes exactly if the token was issued, has not expired and was never
      accepted before. */
  lemma {:induction false} StoreRefinesHistory(s: Store, h: History, ops: seq<Op>, now: int)
    requires Remembers(s, h, now) && Orderly(h, ops, now)
    ensures Answers(s, ops) == Promised(h, ops)
    decreases |ops|
  {
    if ops == [] {
    } else {
      match ops[0] {
        case Generate(token, expiresIn, at) =>
          IssueRemembers(s, h, token, at + expiresIn, now, at);
          var h' := h.(issued := h.issued[token := at + expiresIn]);
          StoreRefinesHistory(Issue(s, token, at + expiresIn), h', ops[1..], at);
        case Validate(token, at) =>
          ConsumeAsPromised(s, h, token, now, at);
          var (s', ok) := Consume(s, token, at);
          OrderlyIgnoresAccepted(h, h.accepted + {token}, ops[1..], at);
          StoreRefinesHistory(s', if ok then h.(accepted := h.accepted + {token}) else h, ops[1..], at);
        case Cleanup(at) =>
          SweepRemembers(s, h, now, at);
          StoreRefinesHistory(Sweep(s, at), h, ops[1..], at);
      }
    }
  }

  function Unswept(ops: seq<Op>): seq<Op> {
    if ops == [] then []
    else (if ops[0].Cleanup? then [] else [ops[0]]) + Unswept(ops[1..])
  }

  lemma {:induction false} PromisedIgnoresSweeps(h: History, ops: seq<Op>)
    ensures Promised(h, ops) == Promised(h, Unswept(ops))
    decreases |ops|
  {
    if ops == [] {
    } else {
      match ops[0] {
        case Cleanup(_) =>
          assert Unswept(ops) == Unswept(ops[1..]);
          PromisedIgnoresSweeps(h, ops[1..]);
        case Generate(token, expiresIn, at) =>
          assert Unswept(ops)[1..] == Unswept(ops[1..]);
          PromisedIgnoresSweeps(h.(issued := h.issued[token := at + expiresIn]), ops[1..]);
        case Validate(token, at) =>
          assert Unswept(ops)[1..] == Unswept(ops[1..]);
          PromisedIgnoresSweeps(if Acceptable(h, token, at) then h.(accepted := h.accepted + {token}) else h, ops[1..]);
      }
    }
  }

  /** Without its sweeps a run gives the same answers. */
  lemma SweepsAreInvisible(ops: seq<Op>, swept: seq<Op>, now: int)
    requires Orderly(History(map[], {}), ops, now) && Orderly(History(map[], {}), swept, now)
    requires Unswept(ops) == Unswept(swept)
    ensures Answers(map[], ops) == Answers(map[], swept)
  {
    StoreRefinesHistory(map[], History(map[], {}), ops, now);
    StoreRefinesHistory(map[], History(map[], {}), swept, now);
    PromisedIgnoresSweeps(History(map[], {}), ops);
    PromisedIgnoresSweeps(History(map[], {}), swept);
  }

  // ----- single use, told from the operations alone -----

  /** The store after one operation. */
  function Apply(s: Store, op: Op): Store {
    match op
    case Generate(token, expiresIn, at) => Issue(s, token, at + expiresIn)
    case Validate(token, at) => Consume(s, token, at).0
    case Cleanup(at) => Sweep(s, at)
  }

  /** The store after a run. */
  function After(ops: seq<Op>): Store {
    if ops == [] then map[] else Apply(After(ops[..|ops| - 1]), ops[|ops| - 1])
  }

  /** The i-th operation is a validation of the token, and is answered with yes. */
  predicate AcceptedAt(ops: seq<Op>, i: nat, token: string)
    requires i < |ops|
  {
    ops[i].Validate? && ops[i].token == token && Consume(After(ops[..i]), token, ops[i].at).1
  }

  /** The token is generated in the run, to last until the given moment at least. */
  predicate IssuedUntil(ops: seq<Op>, token: string, now: int) {
    exists k :: 0 <= k < |ops| && ops[k].Generate? && ops[k].token == token && now <= ops[k].at + ops[k].expiresIn
  }

  /** Clock readings do not go back, and no token is generated twice. */
  ghost predicate InOrder(ops: seq<Op>) {
    forall i, j :: 0 <= i < j < |ops| ==>
      ops[i].at <= ops[j].at && (ops[i].Generate? && ops[j].Generate? ==> ops[i].token != ops[j].token)
  }

  /** A validation of the run said yes to the token. */
  ghost predicate UsedIn(ops: seq<Op>, token: string) {
    exists i :: 0 <= i < |ops| && AcceptedAt(ops, i, token)
  }

  /** The history after one operation; for a validation, ok says how it is answered. */
  function Record(h: History, op: Op, ok: bool): History {
    match op
    case Generate(token, expiresIn, at) => h.(issued := h.issued[token := at + expiresIn])
    case Validate(token, at) => if ok then h.(accepted := h.accepted + {token}) else h
    case Cleanup(_) => h
  }

  /** The history of a run. */
  function HistoryOf(ops: seq<Op>): History {
    if ops == [] then History(map[], {})
    else
      var last := ops[|ops| - 1];
      Record(HistoryOf(ops[..|ops| - 1]), last, !last.Cleanup? && AcceptedAt(ops, |ops| - 1, last.token))
  }

  lemma ApplyRemembers(s: Store, h: History, op: Op, before: int)
    requires Remembers(s, h, before) && before <= op.at
    requires op.Generate? ==> op.token !in h.issued
    ensures Remembers(Apply(s, op), Record(h, op, op.Validate? && Consume(s, op.token, op.at).1), op.at)
  {
    hide Remembers, Issue, Consume, Sweep;
    match op {
      case Generate(token, expiresIn, at) => IssueRemembers(s, h, token, at + expiresIn, before, at);
      case Validate(token, at) => ConsumeAsPromised(s, h, token, before, at);
      case Cleanup(at) => SweepRemembers(s, h, before, at);
    }
  }

  lemma IssuedOneMore(front: seq<Op>, op: Op, token: string, now: int)
    ensures IssuedUntil(front + [op], token, now)
       <==> IssuedUntil(front, token, now)
            || (op.Generate? && op.token == token && now <= op.at + op.expiresIn)
  {
    var ops := front + [op];
    assert ops[|front|] == op;
    assert forall k :: 0 <= k < |front| ==> ops[k] == front[k];
  }

  lemma UsedOneMore(front: seq<Op>, op: Op, token: string)
    ensures UsedIn(front + [op], token) <==> UsedIn(front, token) || AcceptedAt(front + [op], |front|, token)
  {
    var ops := front + [op];
    hide After, Consume;
    forall i | 0 <= i < |front| ensures AcceptedAt(ops, i, token) <==> AcceptedAt(front, i, token) {
      assert ops[i] == front[i] && ops[..i] == front[..i];
    }
  }

  /** What the history holds as issued is what was generated. */
  lemma {:induction false} IssuedMeans(ops: seq<Op>, token: string, now: int)
    requires InOrder(ops)
    ensures token in HistoryOf(ops).issued && now <= HistoryOf(ops).issued[token] <==> IssuedUntil(ops, token, now)
  {
    if ops == [] {
    } else {
      var front, op := ops[..|ops| - 1], ops[|ops| - 1];
      assert ops == front + [op];
      IssuedMeans(front, token, now);
      IssuedOneMore(front, op, token, now);
      hide AcceptedAt;
    }
  }

  /** What it holds as accepted is what was said yes to. */
  lemma {:induction false} AcceptedMeans(ops: seq<Op>, token: string)
    ensures token in HistoryOf(ops).accepted <==> UsedIn(ops, token)
  {
    if ops == [] {
    } else {
      var front, op := ops[..|ops| - 1], ops[|ops| - 1];
      assert ops == front + [op];
      AcceptedMeans(front, token);
      UsedOneMore(front, op, token);
      hide UsedIn, After, Consume;
    }
  }

  lemma RemembersLater(s: Store, h: History, before: int, now: int)
    requires Remembers(s, h, before) && before <= now
    ensures Remembers(s, h, now)
  {
  }

  lemma OneMoreOp(front: seq<Op>, op: Op)
    ensures After(front + [op]) == Apply(After(front), op)
    ensures HistoryOf(front + [op])
         == Record(HistoryOf(front), op, op.Validate? && Consume(After(front), op.token, op.at).1)
  {
    var ops := front + [op];
    assert ops[..|ops| - 1] == front && ops[|ops| - 1] == op;
    hide Apply, Consume;
  }

  /** A run in order is in order up to its last operation, which comes last and generates a new token only. */
  lemma FrontInOrder(front: seq<Op>, op: Op)
    requires InOrder(front + [op])
    ensures InOrder(front) && (front != [] ==> front[|front| - 1].at <= op.at)
    ensures op.Generate? ==> op.token !in HistoryOf(front).issued
  {
    var ops := front + [op];
    assert ops[|front|] == op;
    assert forall k :: 0 <= k < |front| ==> ops[k] == front[k];
    if op.Generate? && op.token in HistoryOf(front).issued {
      IssuedMeans(front, op.token, HistoryOf(front).issued[op.token]);
      hide HistoryOf;
    }
  }

  lemma NothingToRemember(now: int)
    ensures Remembers(After([]), HistoryOf([]), now)
  {
  }

  /** The store of a run in order remembers the history of the run. */
  lemma {:induction false} RunRemembers(ops: seq<Op>, now: int)
    requires InOrder(ops) && (ops != [] ==> ops[|ops| - 1].at <= now)
    ensures Remembers(After(ops), HistoryOf(ops), now)
  {
    hide *;
    if ops == [] {
      NothingToRemember(now);
    } else {
      var front, op := ops[..|ops| - 1], ops[|ops| - 1];
      assert ops == front + [op];
      FrontInOrder(front, op);
      RunRemembers(front, op.at);
      ApplyRemembers(After(front), HistoryOf(front), op, op.at);
      OneMoreOp(front, op);
      RemembersLater(After(ops), HistoryOf(ops), op.at, now);
    }
  }

  /** After every run in order, sweeps and all, a validation says yes exactly for a token that was generated, to
      last until now at least, and that no validation of the run said yes to. */
  lemma AcceptedExactly(ops: seq<Op>, token: string, now: int)
    requires InOrder(ops) && (ops != [] ==> ops[|ops| - 1].at <= now)
    ensures Consume(After(ops), token, now).1
       <==> IssuedUntil(ops, token, now) && !exists i :: 0 <= i < |ops| && AcceptedAt(ops, i, token)
  {
    RunRemembers(ops, now);
    IssuedMeans(ops, token, now);
    AcceptedMeans(ops, token);
    ConsumeAsPromised(After(ops), HistoryOf(ops), token, now, now);
    hide After, Consume, Remembers, AcceptedAt, HistoryOf;
  }
}

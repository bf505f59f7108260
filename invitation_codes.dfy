/** The administrators' invitation-code endpoints (`/api/invitation-codes`):
    listing, creating one or a batch, deleting one or a batch, cleaning up
    expired codes and reporting whether the feature is on. Every endpoint but
    the status and the listing refuses with 400 while the feature is off,
    before touching the store. */
module InvitationCodes {
  import opened Json
  import opened Http

  /** A call into the invitation-code store, which is not part of this model. */
  datatype StoreCall =
    | Mint(createdBy: Value, expiresInHours: Value)   // `createInvitationCode`
    | Remove(code: Value)                             // `deleteInvitationCode`
    | ListAll                                         // `getAllInvitationCodes`
    | Cleanup                                         // `cleanupExpiredInvitationCodes`

  /** What a store call does: return a value, or throw an error whose
      `message` is given. */
  datatype Outcome = Returned(v: Value) | Threw(message: Value)

  /** The store as the handlers see it: whether the feature is on, and the
      history of calls made to it. What each call answers is decided by
      `answer` from the calls made before it. No handler changes whether the
      feature is on: it is read from the configuration. */
  class InvitationStore {
    const enabled: bool
    var calls: seq<StoreCall>
    const answer: (seq<StoreCall>, StoreCall) -> Outcome

    constructor (enabled: bool, answer: (seq<StoreCall>, StoreCall) -> Outcome)
      ensures this.enabled == enabled && this.answer == answer && calls == []
    {
      this.enabled := enabled;
      this.answer := answer;
      calls := [];
    }

    /** One store call. */
    method Call(c: StoreCall) returns (out: Outcome)
      modifies this
      ensures calls == old(calls) + [c]
      ensures out == answer(old(calls), c)
    {
      out := answer(calls, c);
      calls := calls + [c];
    }
  }

  /** `request.user?.profile?.handle || request.user?.handle || 'admin'` */
  function CreatedBy(user: Value): (creator: Value)
    ensures Truthy(creator)
    ensures Truthy(Member(Member(user, "profile"), "handle")) ==> creator == Member(Member(user, "profile"), "handle")
    ensures !Truthy(Member(Member(user, "profile"), "handle")) && Truthy(Member(user, "handle")) ==> creator == Member(user, "handle")
    ensures !Truthy(Member(Member(user, "profile"), "handle")) && !Truthy(Member(user, "handle")) ==> creator == Str("admin")
  {
    OrElse(OrElse(Member(Member(user, "profile"), "handle"), Member(user, "handle")), Str("admin"))
  }

  const Disabled: Response := ErrorBody(400, "Invitation codes are disabled")

  /** `response.status(500).json({ error: error.message || fallback })` */
  function ThrownBody(message: Value, fallback: string): (res: Response) {
    Body(500, Obj(map["error" := OrElse(message, Str(fallback))]))
  }

  /** `GET /status`: never refused, and never calls the store. */
  method Status(store: InvitationStore) returns (res: Response)
    ensures res.Body? && res.code == 200 && res.json.Obj? && res.json.fields.Keys == {"enabled"}
    ensures Truthy(res.json.fields["enabled"]) <==> store.enabled
  {
    res := Body(200, Obj(map["enabled" := Bool(store.enabled)]));
  }

  /** `GET /`: while disabled, an empty list without asking the store. */
  method ListCodes(store: InvitationStore) returns (res: Response)
    modifies store
    ensures !store.enabled ==>
              store.calls == old(store.calls) && res == Body(200, Obj(map["enabled" := Bool(false), "codes" := Arr([])]))
    ensures store.enabled ==>
              && store.calls == old(store.calls) + [ListAll]
              && res == match store.answer(old(store.calls), ListAll)
                        case Returned(v) => Body(200, Obj(map["enabled" := Bool(true), "codes" := v]))
                        case Threw(_) => ErrorBody(500, "Failed to get invitation codes")
  {
    if !store.enabled {
      return Body(200, Obj(map["enabled" := Bool(false), "codes" := Arr([])]));
    }
    var out := store.Call(ListAll);
    match out
    case Returned(v) => res := Body(200, Obj(map["enabled" := Bool(true), "codes" := v]));
    case Threw(_) => res := ErrorBody(500, "Failed to get invitation codes");
  }

  /** `POST /create`: one code, on behalf of the requesting user. */
  method CreateCode(store: InvitationStore, user: Value, expiresInHours: Value) returns (res: Response)
    modifies store
    ensures !store.enabled ==> store.calls == old(store.calls) && res == Disabled
    ensures store.enabled ==>
              var c := Mint(CreatedBy(user), expiresInHours);
              store.calls == old(store.calls) + [c] &&
              res == match store.answer(old(store.calls), c)
                     case Returned(v) => Body(200, v)
                     case Threw(m) => ThrownBody(m, "Failed to create invitation code")
  {
    if !store.enabled {
      return Disabled;
    }
    var out := store.Call(Mint(CreatedBy(user), expiresInHours));
    match out
    case Returned(v) => res := Body(200, v);
    case Threw(m) => res := ThrownBody(m, "Failed to create invitation code");
  }

  // ---------------------------------------------------------------------------
  // Batch creation

  /** `!count || count < 1 || count > 100` */
  predicate CountRefused(count: Value) {
    !Truthy(count) || Below(ToNumeric(count), 1.0) || Above(ToNumeric(count), 100.0)
  }

  /** The least integer not below `r`. */
  function Ceil(r: real): (c: int)
    ensures c as real >= r && (c - 1) as real < r
  {
    if r.Floor as real == r then r.Floor else r.Floor + 1
  }

  /** How many times `for (let i = 0; i < count; i++)` runs: `i < count`
      converts `count` to a number, and a comparison with NaN is false. */
  function Iterations(n: Numeric): (r: nat) {
    match n
    case Finite(r) => if r <= 0.0 then 0 else Ceil(r)
    case _ => 0
  }

  /** The loop test `i < count` holds exactly for the first `Iterations`
      values of `i`. */
  lemma LoopTest(n: Numeric, i: nat)
    requires !n.PosInf? && !n.NegInf?
    ensures Below(Finite(i as real), if n.Finite? then n.r else 0.0) && n.Finite? <==> i < Iterations(n)
  {
  }

  /** The history after `k` identical mints. */
  function Minted(h: seq<StoreCall>, c: StoreCall, k: nat): (r: seq<StoreCall>)
    ensures |r| == |h| + k && r[..|h|] == h
    ensures forall j :: |h| <= j < |r| ==> r[j] == c
  {
    if k == 0 then h else Minted(h, c, k - 1) + [c]
  }

  /** Whether the first `k` mints all return. */
  predicate AllReturn(answer: (seq<StoreCall>, StoreCall) -> Outcome, h: seq<StoreCall>, c: StoreCall, k: nat) {
    forall j :: 0 <= j < k ==> answer(Minted(h, c, j), c).Returned?
  }

  /** The codes the first `k` mints return, in order. */
  function MintedCodes(answer: (seq<StoreCall>, StoreCall) -> Outcome, h: seq<StoreCall>, c: StoreCall, k: nat): (codes: seq<Value>)
    requires AllReturn(answer, h, c, k)
    ensures |codes| == k
    ensures forall j :: 0 <= j < k ==> codes[j] == answer(Minted(h, c, j), c).v
  {
    if k == 0 then [] else MintedCodes(answer, h, c, k - 1) + [answer(Minted(h, c, k - 1), c).v]
  }

  /** The batch-creation reply: its `count` is the number of codes it
      carries. */
  function BatchCreated(codes: seq<Value>): (res: Response)
    ensures res.Body? && res.code == 200 && res.json.Obj?
    ensures "count" in res.json.fields && "codes" in res.json.fields
    ensures res.json.fields["count"] == Num(|codes| as real) && res.json.fields["codes"] == Arr(codes)
  {
    Body(200, Obj(map["success" := Bool(true), "count" := Num(|codes| as real), "codes" := Arr(codes)]))
  }

  /** `POST /batch-create`: `count` codes, minted one after the other; the
      first mint that throws ends the request with a 500, the codes minted
      before it staying in the store. */
  method BatchCreate(store: InvitationStore, user: Value, count: Value, expiresInHours: Value) returns (res: Response)
    modifies store
    ensures !store.enabled ==> store.calls == old(store.calls) && res == Disabled
    ensures store.enabled && CountRefused(count) ==>
              store.calls == old(store.calls) && res == ErrorBody(400, "Count must be between 1 and 100")
    ensures store.enabled && !CountRefused(count) ==>
              var c := Mint(CreatedBy(user), expiresInHours);
              var n := Iterations(ToNumeric(count));
              if AllReturn(store.answer, old(store.calls), c, n) then
                store.calls == Minted(old(store.calls), c, n) &&
                res == BatchCreated(MintedCodes(store.answer, old(store.calls), c, n))
              else
                exists k :: 0 <= k < n && AllReturn(store.answer, old(store.calls), c, k) &&
                            store.answer(Minted(old(store.calls), c, k), c).Threw? &&
                            store.calls == Minted(old(store.calls), c, k + 1) &&
                            res == ThrownBody(store.answer(Minted(old(store.calls), c, k), c).message,
                                              "Failed to batch create invitation codes")
  {
    if !store.enabled {
      return Disabled;
    }
    var createdBy := CreatedBy(user);
    if CountRefused(count) {
      return ErrorBody(400, "Count must be between 1 and 100");
    }
    var limit := ToNumeric(count);
    var c := Mint(createdBy, expiresInHours);
    ghost var h := store.calls;
    ghost var n := Iterations(limit);
    var invitations: seq<Value> := [];
    var i: nat := 0;
    LoopTest(limit, i);
    while limit.Finite? && Below(Finite(i as real), limit.r)
      invariant i <= n
      invariant store.calls == Minted(h, c, i) && AllReturn(store.answer, h, c, i)
      invariant invitations == MintedCodes(store.answer, h, c, i)
      decreases n - i
    {
      LoopTest(limit, i);
      var out := store.Call(c);
      if out.Threw? {
        assert Minted(h, c, i + 1) == Minted(h, c, i) + [c];
        assert !AllReturn(store.answer, h, c, n) by {
          assert i < n && store.answer(Minted(h, c, i), c).Threw?;
        }
        return ThrownBody(out.message, "Failed to batch create invitation codes");
      }
      invitations := invitations + [out.v];
      i := i + 1;
      LoopTest(limit, i);
    }
    LoopTest(limit, i);
    res := BatchCreated(invitations);
  }

  /** A whole number from 1 to 100 makes that many codes; a number out of
      that range is refused. */
  lemma WholeCounts(count: Value, k: int)
    requires count == Num(k as real)
    ensures 1 <= k <= 100 ==> !CountRefused(count) && Iterations(ToNumeric(count)) == k
    ensures k < 1 || k > 100 ==> CountRefused(count)
  {
  }

  /** Any count that converts to a number in range passes the check and makes
      that number of codes rounded up (2.5 makes three); any count that
      converts to a number out of range is refused. */
  lemma InRangeCountsRoundUp(count: Value, r: real)
    requires ToNumeric(count) == Finite(r)
    ensures 1.0 <= r <= 100.0 ==> !CountRefused(count) && Iterations(ToNumeric(count)) == Ceil(r)
    ensures r < 1.0 || r > 100.0 ==> CountRefused(count)
  {
    if count.Str? && count.s == "" {
      assert Trim(count.s) == "";
    }
  }

  /** A truthy count that does not convert to a number passes the range check,
      which is false for NaN both ways, and makes no code. */
  lemma NonNumericCountMakesNone(count: Value)
    requires Truthy(count) && ToNumeric(count).NotANumber?
    ensures !CountRefused(count) && Iterations(ToNumeric(count)) == 0
  {
  }

  /** Such counts exist: an object, a word and a list of two elements are
      truthy and convert to NaN. */
  lemma TruthyNonNumericCounts(count: Value)
    requires count == Obj(map[]) || count == Str("abc") || count == Arr([Null, Null])
    ensures Truthy(count) && ToNumeric(count).NotANumber?
  {
    if count == Str("abc") {
      assert TrimStart("abc") == "abc";
      assert TrimEnd("abc") == "abc";
      assert DotIndex("abc") == 3 by {
        assert DotIndex("c") == 1 + DotIndex("");
        assert "bc"[1..] == "c" && "abc"[1..] == "bc";
      }
      assert !IsDigit("abc"[0]);
    }
  }

  // ---------------------------------------------------------------------------
  // Deletion

  /** `DELETE /:code`: 404 when the store reports nothing deleted. */
  method DeleteCode(store: InvitationStore, code: string) returns (res: Response)
    modifies store
    ensures !store.enabled ==> store.calls == old(store.calls) && res == Disabled
    ensures store.enabled ==>
              store.calls == old(store.calls) + [Remove(Str(code))] &&
              res == match store.answer(old(store.calls), Remove(Str(code)))
                     case Returned(v) =>
                       if Truthy(v) then Body(200, Obj(map["success" := Bool(true)]))
                       else ErrorBody(404, "Invitation code not found")
                     case Threw(_) => ErrorBody(500, "Failed to delete invitation code")
  {
    if !store.enabled {
      return Disabled;
    }
    var out := store.Call(Remove(Str(code)));
    match out
    case Returned(v) =>
      if Truthy(v) {
        res := Body(200, Obj(map["success" := Bool(true)]));
      } else {
        res := ErrorBody(404, "Invitation code not found");
      }
    case Threw(_) => res := ErrorBody(500, "Failed to delete invitation code");
  }

  /** Why one code of a batch was not deleted: the store reported nothing
      deleted (`Code ${code} not found`), or threw (`Failed to delete code
      ${code}: ${error.message}`). */
  datatype DeleteError = NotFound(code: Value) | DeleteFailed(code: Value, message: Value)

  /** The batch-deletion reply; `errors` is left out when there are none. */
  datatype BatchDeleteReply =
    | Refused(response: Response)
    | Summary(deletedCount: nat, totalRequested: nat, errors: Option<seq<DeleteError>>)

  /** The batch-deletion loop, one store call per code in order: how many were
      deleted, which failed, and the history afterwards. */
  function DeleteRun(answer: (seq<StoreCall>, StoreCall) -> Outcome, h: seq<StoreCall>, codes: seq<Value>)
    : (r: (nat, seq<DeleteError>, seq<StoreCall>))
    decreases |codes|
  {
    if codes == [] then (0, [], h)
    else
      var (deleted, errors, h') := DeleteRun(answer, h, codes[..|codes| - 1]);
      var code := codes[|codes| - 1];
      match answer(h', Remove(code))
      case Returned(v) =>
        if Truthy(v) then (deleted + 1, errors, h' + [Remove(code)])
        else (deleted, errors + [NotFound(code)], h' + [Remove(code)])
      case Threw(m) => (deleted, errors + [DeleteFailed(code, m)], h' + [Remove(code)])
  }

  /** Every code is accounted for, once: deleted or reported; and the store
      was asked about each code, in order. */
  lemma {:induction false} DeleteRunAccounting(answer: (seq<StoreCall>, StoreCall) -> Outcome, h: seq<StoreCall>, codes: seq<Value>)
    ensures var (deleted, errors, h') := DeleteRun(answer, h, codes);
      && deleted + |errors| == |codes|
      && |h'| == |h| + |codes| && h'[..|h|] == h
      && forall j :: 0 <= j < |codes| ==> h'[|h| + j] == Remove(codes[j])
    decreases |codes|
  {
    if codes != [] {
      DeleteRunAccounting(answer, h, codes[..|codes| - 1]);
    }
  }

  /** `POST /batch-delete`: 400 unless `codes` is a non-empty list; then each
      code is deleted in turn, a failure being recorded and the loop going on. */
  method BatchDelete(store: InvitationStore, codes: Value) returns (reply: BatchDeleteReply)
    modifies store
    ensures !store.enabled ==> store.calls == old(store.calls) && reply == Refused(Disabled)
    ensures store.enabled && !(codes.Arr? && |codes.items| > 0) ==>
              store.calls == old(store.calls) && reply == Refused(ErrorBody(400, "No codes provided for deletion"))
    ensures store.enabled && codes.Arr? && |codes.items| > 0 ==>
              var (deleted, errors, h') := DeleteRun(store.answer, old(store.calls), codes.items);
              store.calls == h' &&
              reply == Summary(deleted, |codes.items|, if |errors| > 0 then Some(errors) else None)
  {
    if !store.enabled {
      return Refused(Disabled);
    }
    if !Truthy(codes) || !codes.Arr? || |codes.items| == 0 {
      return Refused(ErrorBody(400, "No codes provided for deletion"));
    }
    ghost var h := store.calls;
    var deletedCount := 0;
    var errors: seq<DeleteError> := [];
    var i := 0;
    while i < |codes.items|
      invariant 0 <= i <= |codes.items|
      invariant DeleteRun(store.answer, h, codes.items[..i]) == (deletedCount, errors, store.calls)
      decreases |codes.items| - i
    {
      var code := codes.items[i];
      assert codes.items[..i + 1][..i] == codes.items[..i];
      var out := store.Call(Remove(code));
      match out {
        case Returned(v) =>
          if Truthy(v) {
            deletedCount := deletedCount + 1;
          } else {
            errors := errors + [NotFound(code)];
          }
        case Threw(m) =>
          errors := errors + [DeleteFailed(code, m)];
      }
      i := i + 1;
    }
    assert codes.items[..i] == codes.items;
    reply := Summary(deletedCount, |codes.items|, if |errors| > 0 then Some(errors) else None);
  }

  /** The batch-deletion summary adds up: deleted plus reported equals
      requested, and `errors`, when present, is never empty. */
  lemma BatchDeleteSummary(answer: (seq<StoreCall>, StoreCall) -> Outcome, h: seq<StoreCall>, codes: seq<Value>)
    ensures var (deleted, errors, _) := DeleteRun(answer, h, codes);
      var s := Summary(deleted, |codes|, if |errors| > 0 then Some(errors) else None);
      && s.deletedCount + (if s.errors.Some? then |s.errors.value| else 0) == s.totalRequested
      && (s.errors.Some? ==> |s.errors.value| > 0)
      && (s.errors.None? <==> s.deletedCount == s.totalRequested)
  {
    DeleteRunAccounting(answer, h, codes);
  }

  // ---------------------------------------------------------------------------
  // Cleanup

  /** `POST /cleanup`: the number of expired codes the store removed. */
  method CleanupCodes(store: InvitationStore) returns (res: Response)
    modifies store
    ensures !store.enabled ==> store.calls == old(store.calls) && res == Disabled
    ensures store.enabled ==>
              && store.calls == old(store.calls) + [Cleanup]
              && res == match store.answer(old(store.calls), Cleanup)
                        case Returned(v) => Body(200, Obj(map["cleanedCount" := v]))
                        case Threw(_) => ErrorBody(500, "Failed to cleanup invitation codes")
  {
    if !store.enabled {
      return Disabled;
    }
    var out := store.Call(Cleanup);
    match out
    case Returned(v) => res := Body(200, Obj(map["cleanedCount" := v]));
    case Threw(_) => res := ErrorBody(500, "Failed to cleanup invitation codes");
  }
}

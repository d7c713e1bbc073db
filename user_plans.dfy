/**
 * The plan-based access gate: the `user_plans` table, the selection of a
 * user's most recent plan record, the `hasActivePlan` predicate, and the hook
 * state (`userPlan`, `hasActivePlan`, `loading`) that fetching a plan and
 * requesting a plan update.
 */
module UserPlans {
  import opened Wrappers
  import opened Types

  datatype PlanStatus = Pending | Active | Expired

  /** A plan record. `expires_at` is set by an approval path outside this model. */
  datatype UserPlan = UserPlan(
    user_id: string,
    status: PlanStatus,
    payment_proof_url: string,
    payment_method: string,
    amount: int,
    expires_at: Option<Timestamp>,
    created_at: Timestamp)

  /** The plan price in centavos (R$ 20,00). */
  const PLAN_AMOUNT := 2000
  const PAYMENT_METHOD := "pix"
  const NOT_SIGNED_IN := "Usuário não logado"
  const REQUEST_FAILED := "Erro ao criar solicitação de plano"

  /**
   * `hasActivePlan` for a fetched record: status active, an expiry present and
   * strictly after `now`.
   */
  predicate HasActivePlan(plan: Option<UserPlan>, now: Timestamp)
  {
    && plan.Some?
    && plan.value.status == Active
    && plan.value.expires_at.Some?
    && plan.value.expires_at.value > now
  }

  /** The boundary cases fail closed: expiry equal to now, or missing. */
  lemma ActivePlanBoundaries(p: UserPlan, now: Timestamp)
    ensures p.expires_at == Some(now) ==> !HasActivePlan(Some(p), now)
    ensures p.expires_at.None? ==> !HasActivePlan(Some(p), now)
    ensures p.status != Active ==> !HasActivePlan(Some(p), now)
    ensures p.status == Active && p.expires_at == Some(now + 1) ==> HasActivePlan(Some(p), now)
    ensures !HasActivePlan(None, now)
  {
  }

  /** Once a plan has lapsed it stays lapsed as time advances. */
  lemma ExpiryIsPermanent(plan: Option<UserPlan>, t1: Timestamp, t2: Timestamp)
    requires t1 <= t2 && !HasActivePlan(plan, t1)
    ensures !HasActivePlan(plan, t2)
  {
  }

  /**
   * The record `.eq('user_id', uid).order('created_at', desc).limit(1)`
   * selects: the user's record with the greatest `created_at`. The store's
   * order among equal timestamps is unspecified; here the earliest-inserted
   * of them wins.
   */
  function LatestPlan(rows: seq<UserPlan>, uid: string): (r: Option<UserPlan>)
    ensures r.None? <==> forall p :: p in rows ==> p.user_id != uid
    ensures r.Some? ==> r.value in rows && r.value.user_id == uid
    ensures r.Some? ==> forall p :: p in rows && p.user_id == uid ==> p.created_at <= r.value.created_at
  {
    if rows == [] then None
    else
      var rest := LatestPlan(rows[1..], uid);
      if rows[0].user_id == uid && (rest.None? || rest.value.created_at <= rows[0].created_at)
      then Some(rows[0])
      else rest
  }

  /** A record appended with a strictly later timestamp than all of the user's becomes the latest. */
  lemma {:induction false} LatestAfterAppend(rows: seq<UserPlan>, p: UserPlan)
    requires forall q :: q in rows && q.user_id == p.user_id ==> q.created_at < p.created_at
    ensures LatestPlan(rows + [p], p.user_id) == Some(p)
  {
    if rows == [] {
      assert LatestPlan([p][1..], p.user_id) == None;
    } else {
      assert (rows + [p])[1..] == rows[1..] + [p];
      LatestAfterAppend(rows[1..], p);
    }
  }

  /** Appending one user's record leaves every other user's latest record as it was. */
  lemma {:induction false} OtherUsersUnaffected(rows: seq<UserPlan>, p: UserPlan, uid: string)
    requires uid != p.user_id
    ensures LatestPlan(rows + [p], uid) == LatestPlan(rows, uid)
  {
    if rows == [] {
      assert LatestPlan([p][1..], uid) == None;
    } else {
      assert (rows + [p])[1..] == rows[1..] + [p];
      OtherUsersUnaffected(rows[1..], p, uid);
    }
  }

  /** The record `createPlanRequest` asks the store to insert. */
  function PlanRequest(uid: string, proofUrl: string, now: Timestamp): (p: UserPlan)
    ensures p.user_id == uid && p.status == Pending && p.payment_proof_url == proofUrl
    ensures p.payment_method == "pix" && p.amount == 2000 && p.expires_at.None?
  {
    UserPlan(uid, Pending, proofUrl, PAYMENT_METHOD, PLAN_AMOUNT, None, now)
  }

  /**
   * A fresh request supersedes whatever the user had: once it is stored, the
   * next fetch selects the pending request and the gate closes, even for a
   * user whose previous plan was still active.
   */
  lemma RequestSupersedesActivePlan(rows: seq<UserPlan>, uid: string, proofUrl: string, now: Timestamp)
    requires forall q :: q in rows && q.user_id == uid ==> q.created_at < now
    ensures LatestPlan(rows + [PlanRequest(uid, proofUrl, now)], uid) == Some(PlanRequest(uid, proofUrl, now))
    ensures !HasActivePlan(LatestPlan(rows + [PlanRequest(uid, proofUrl, now)], uid), now)
  {
    LatestAfterAppend(rows, PlanRequest(uid, proofUrl, now));
  }

  /** The remote `user_plans` table. */
  class PlanStore {
    var rows: seq<UserPlan>
    /** Whether the errors this store reports itself are JavaScript `Error` instances. */
    const errorInstances: bool

    constructor (rows: seq<UserPlan>, errorInstances: bool)
      ensures this.rows == rows && this.errorInstances == errorInstances
    {
      this.rows := rows;
      this.errorInstances := errorInstances;
    }

    /**
     * The latest-record query with `.single()`: the latest record, the
     * "no rows" error when the user has none, or the injected failure.
     */
    function SelectLatest(uid: string, fault: Option<StoreError>): (r: Result<UserPlan, StoreError>)
      reads this
      ensures fault.Some? ==> r == Err(fault.value)
      ensures fault.None? && r.Err? ==> (r.error == StoreError(NO_ROWS, NO_ROWS_MESSAGE, errorInstances)
        && LatestPlan(rows, uid).None?)
      ensures r.Ok? ==> Some(r.value) == LatestPlan(rows, uid)
    {
      if fault.Some? then Err(fault.value)
      else match LatestPlan(rows, uid)
        case Some(p) => Ok(p)
        case None => Err(StoreError(NO_ROWS, NO_ROWS_MESSAGE, errorInstances))
    }

    /** `insert([record]).select().single()`: appends the record, or fails and changes nothing. */
    method Insert(record: UserPlan, fault: Option<StoreError>) returns (r: Result<UserPlan, StoreError>)
      modifies this
      ensures fault.Some? ==> r == Err(fault.value) && rows == old(rows)
      ensures fault.None? ==> r == Ok(record) && rows == old(rows) + [record]
    {
      if fault.Some? {
        return Err(fault.value);
      }
      rows := rows + [record];
      r := Ok(record);
    }
  }

  /** The state of one `useUserPlan` hook. */
  class UserPlanHook {
    const store: PlanStore
    var userPlan: Option<UserPlan>
    var hasActivePlan: bool
    var loading: bool

    constructor (store: PlanStore)
      ensures this.store == store
      ensures userPlan.None? && !hasActivePlan && loading
    {
      this.store := store;
      userPlan := None;
      hasActivePlan := false;
      loading := true;
    }

    /**
     * The effect that runs when the signed-in user changes: with no user the
     * state is cleared, otherwise the plan is fetched. Returns whether an
     * error was logged.
     */
    method OnUserChange(user: Option<User>, now: Timestamp, fault: Option<StoreError>) returns (logged: bool)
      modifies this
      ensures user.None? ==> userPlan.None? && !hasActivePlan && !loading && !logged
      ensures user.Some? ==> userPlan == AfterFetch(store.SelectLatest(user.value.id, fault))
      ensures user.Some? ==> (logged <==> fault.Some? && fault.value.code != NO_ROWS)
      ensures hasActivePlan == HasActivePlan(userPlan, now) && !loading
    {
      if user.Some? {
        logged := FetchUserPlan(user, now, fault);
      } else {
        userPlan := None;
        hasActivePlan := false;
        loading := false;
        logged := false;
      }
    }

    /** `userPlan` after a fetch: the selected record, or null on any error. */
    static function AfterFetch(response: Result<UserPlan, StoreError>): (plan: Option<UserPlan>)
      ensures response.Ok? ==> plan == Some(response.value)
      ensures response.Err? ==> plan.None?
    {
      if response.Ok? then Some(response.value) else None
    }

    /**
     * `fetchUserPlan`. Without a user it does nothing. Otherwise it selects the
     * latest record; a "no rows" answer leaves the plan null without error,
     * any other error is logged and also leaves it null; `loading` ends false.
     */
    method FetchUserPlan(user: Option<User>, now: Timestamp, fault: Option<StoreError>) returns (logged: bool)
      modifies this
      ensures user.None? ==> (!logged && userPlan == old(userPlan)
        && hasActivePlan == old(hasActivePlan) && loading == old(loading))
      ensures user.Some? ==> (userPlan == AfterFetch(store.SelectLatest(user.value.id, fault))
        && hasActivePlan == HasActivePlan(userPlan, now) && !loading)
      ensures user.Some? ==> (logged <==> fault.Some? && fault.value.code != NO_ROWS)
    {
      logged := false;
      if user.None? {
        return;
      }
      loading := true;
      var response := store.SelectLatest(user.value.id, fault);
      if response.Err? && response.error.code != NO_ROWS {
        // the catch block: log, then clear
        logged := true;
        userPlan := None;
        hasActivePlan := false;
      } else {
        userPlan := if response.Ok? then Some(response.value) else None;
        if userPlan.Some? && userPlan.value.status == Active && userPlan.value.expires_at.Some? {
          hasActivePlan := userPlan.value.expires_at.value > now;
        } else {
          hasActivePlan := false;
        }
      }
      loading := false;
    }

    /**
     * `createPlanRequest`: without a user it throws "Usuário não logado" and
     * inserts nothing; otherwise it inserts one pending "pix" record of 2000
     * with the proof URL verbatim, and on success sets `userPlan` to it,
     * leaving `hasActivePlan` as it was.
     */
    method CreatePlanRequest(user: Option<User>, proofUrl: string, now: Timestamp, fault: Option<StoreError>)
      returns (r: Result<UserPlan, string>)
      modifies this, store
      ensures user.None? ==> (r == Err(NOT_SIGNED_IN) && store.rows == old(store.rows)
        && userPlan == old(userPlan))
      ensures user.Some? && fault.Some? ==> (r == Err(ThrownMessage(fault.value, REQUEST_FAILED))
        && store.rows == old(store.rows) && userPlan == old(userPlan))
      ensures user.Some? && fault.None? ==> (r == Ok(PlanRequest(user.value.id, proofUrl, now))
        && store.rows == old(store.rows) + [r.value] && userPlan == Some(r.value))
      ensures hasActivePlan == old(hasActivePlan) && loading == old(loading)
    {
      if user.None? {
        return Err(NOT_SIGNED_IN);
      }
      var inserted := store.Insert(PlanRequest(user.value.id, proofUrl, now), fault);
      if inserted.Err? {
        return Err(ThrownMessage(inserted.error, REQUEST_FAILED));
      }
      userPlan := Some(inserted.value);
      r := Ok(inserted.value);
    }
  }

  /** Without a failure, a fetch selects the user's latest record. */
  lemma FetchSelectsLatest(store: PlanStore, uid: string)
    ensures UserPlanHook.AfterFetch(store.SelectLatest(uid, None)) == LatestPlan(store.rows, uid)
  {
  }
}

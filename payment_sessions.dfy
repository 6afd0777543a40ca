/**
 * The `payment_sessions` table as the two Stripe route handlers see it: one row per
 * checkout attempt, created `pending` by the checkout initiator and moved to `paid`
 * by the webhook's conditional update.
 */
module PaymentSessions {
  import opened Wrappers

  /** The two values the handlers write into the `type` column. */
  datatype Kind = PublishFee | SupportContribution

  /** The value of the `type` column for a kind. */
  function KindName(k: Kind): string {
    match k
    case PublishFee => "publish_fee"
    case SupportContribution => "support_contribution"
  }

  datatype Status = Pending | Paid

  /**
   * The columns the handlers write. The store-generated `id`, `created_at` and the
   * currency default are never written by the handlers and are not modelled.
   */
  datatype Row = Row(
    amount: int,
    stripeSessionId: string,
    status: Status,
    kind: Kind,
    projectId: Option<string>,
    giftItemId: Option<string>,
    paymentIntentId: Option<string>,
    completedAt: Option<string>)

  /**
   * The shape every row written by the two handlers has: a positive amount, exactly the
   * subject column its kind calls for, no settlement data while pending, and a
   * completion timestamp once paid.
   */
  predicate WellFormed(r: Row) {
    && r.amount > 0
    && (r.kind == PublishFee ==> r.projectId.Some? && r.giftItemId.None?)
    && (r.kind == SupportContribution ==> r.giftItemId.Some? && r.projectId.None?)
    && (r.status == Pending ==> r.paymentIntentId.None? && r.completedAt.None?)
    && (r.status == Paid ==> r.completedAt.Some?)
  }

  predicate AllWellFormed(rows: seq<Row>) {
    forall k :: 0 <= k < |rows| ==> WellFormed(rows[k])
  }

  /** The filter `stripe_session_id = sid AND status = 'pending'`. */
  predicate Matches(r: Row, sid: string) {
    r.stripeSessionId == sid && r.status == Pending
  }

  /** The `SET status = 'paid', stripe_payment_intent_id = intent, completed_at = at` part. */
  function Settle(r: Row, intent: Option<string>, at: string): Row {
    r.(status := Paid, paymentIntentId := intent, completedAt := Some(at))
  }

  /** One row after the conditional update: settled when it matches the filter, else untouched. */
  function Settled(r: Row, sid: string, intent: Option<string>, at: string): Row {
    if Matches(r, sid) then Settle(r, intent, at) else r
  }

  /**
   * The only change a row may undergo: none at all, or `pending` to `paid` with only the
   * intent id and completion timestamp filled in.
   */
  predicate Advances(before: Row, after: Row) {
    || before == after
    || (&& before.status == Pending
        && after.status == Paid
        && after.completedAt.Some?
        && after == before.(status := Paid, paymentIntentId := after.paymentIntentId,
                            completedAt := after.completedAt))
  }

  /** The whole table after the conditional update, the reference the store's scan is proved against. */
  function ConditionalUpdate(rows: seq<Row>, sid: string, intent: Option<string>, at: string): (u: seq<Row>)
    ensures |u| == |rows|
  {
    if rows == [] then []
    else ConditionalUpdate(rows[..|rows| - 1], sid, intent, at) + [Settled(rows[|rows| - 1], sid, intent, at)]
  }

  /** The number of rows the filter selects. */
  function CountMatching(rows: seq<Row>, sid: string): nat {
    if rows == [] then 0
    else CountMatching(rows[..|rows| - 1], sid) + (if Matches(rows[|rows| - 1], sid) then 1 else 0)
  }

  /** The number of rows whose status is `paid`. */
  function CountPaid(rows: seq<Row>): nat {
    if rows == [] then 0
    else CountPaid(rows[..|rows| - 1]) + (if rows[|rows| - 1].status == Paid then 1 else 0)
  }

  /** Row `k` after the update is row `k` before, settled when it matched. */
  lemma {:induction false} ConditionalUpdateAt(rows: seq<Row>, sid: string, intent: Option<string>, at: string, k: nat)
    requires k < |rows|
    ensures ConditionalUpdate(rows, sid, intent, at)[k] == Settled(rows[k], sid, intent, at)
  {
    var n := |rows| - 1;
    if k < n {
      ConditionalUpdateAt(rows[..n], sid, intent, at, k);
    }
  }

  /**
   * The frame of the update: every row only advances; rows of other sessions and rows
   * already paid are unchanged; each matching row is settled with the given intent and time.
   */
  lemma UpdateFrame(rows: seq<Row>, sid: string, intent: Option<string>, at: string)
    ensures var u := ConditionalUpdate(rows, sid, intent, at);
      forall k :: 0 <= k < |rows| ==>
        && Advances(rows[k], u[k])
        && u[k].stripeSessionId == rows[k].stripeSessionId
        && (rows[k].stripeSessionId != sid ==> u[k] == rows[k])
        && (rows[k].status == Paid ==> u[k] == rows[k])
        && (Matches(rows[k], sid) ==> u[k] == Settle(rows[k], intent, at))
  {
    forall k | 0 <= k < |rows| {
      ConditionalUpdateAt(rows, sid, intent, at, k);
    }
  }

  /**
   * Replaying the update for the same session changes nothing, whatever intent id and
   * timestamp the replay carries: the first delivery already took every matching row
   * out of `pending`.
   */
  lemma {:induction false} UpdateIdempotent(rows: seq<Row>, sid: string, intent: Option<string>, at: string,
                                            intent': Option<string>, at': string)
    ensures var once := ConditionalUpdate(rows, sid, intent, at);
      ConditionalUpdate(once, sid, intent', at') == once
  {
    if rows != [] {
      var n := |rows| - 1;
      var once := ConditionalUpdate(rows, sid, intent, at);
      UpdateIdempotent(rows[..n], sid, intent, at, intent', at');
      assert once[..n] == ConditionalUpdate(rows[..n], sid, intent, at);
    }
  }

  /** After the update no row of that session is still pending. */
  lemma {:induction false} UpdateClearsPending(rows: seq<Row>, sid: string, intent: Option<string>, at: string)
    ensures CountMatching(ConditionalUpdate(rows, sid, intent, at), sid) == 0
  {
    if rows != [] {
      var n := |rows| - 1;
      var u := ConditionalUpdate(rows, sid, intent, at);
      UpdateClearsPending(rows[..n], sid, intent, at);
      assert u[..n] == ConditionalUpdate(rows[..n], sid, intent, at);
    }
  }

  /** The update leaves the table as it is exactly when the filter selects no row. */
  lemma {:induction false} UpdateNoOpIff(rows: seq<Row>, sid: string, intent: Option<string>, at: string)
    ensures ConditionalUpdate(rows, sid, intent, at) == rows <==> CountMatching(rows, sid) == 0
  {
    if rows != [] {
      var n := |rows| - 1;
      var u := ConditionalUpdate(rows, sid, intent, at);
      UpdateNoOpIff(rows[..n], sid, intent, at);
      assert u[..n] == ConditionalUpdate(rows[..n], sid, intent, at);
      assert rows == rows[..n] + [rows[n]];
      if u == rows {
        assert u[..n] == rows[..n];
        assert u[n] == rows[n];
      }
    }
  }

  /** Every row the filter selects becomes paid, and no paid row stops being paid. */
  lemma {:induction false} UpdatePaidCount(rows: seq<Row>, sid: string, intent: Option<string>, at: string)
    ensures CountPaid(ConditionalUpdate(rows, sid, intent, at)) == CountPaid(rows) + CountMatching(rows, sid)
  {
    if rows != [] {
      var n := |rows| - 1;
      var u := ConditionalUpdate(rows, sid, intent, at);
      UpdatePaidCount(rows[..n], sid, intent, at);
      assert u[..n] == ConditionalUpdate(rows[..n], sid, intent, at);
    }
  }

  /** The update keeps every row in the shape the handlers write. */
  lemma UpdatePreservesWellFormed(rows: seq<Row>, sid: string, intent: Option<string>, at: string)
    requires AllWellFormed(rows)
    ensures AllWellFormed(ConditionalUpdate(rows, sid, intent, at))
  {
    var u := ConditionalUpdate(rows, sid, intent, at);
    forall k | 0 <= k < |u| ensures WellFormed(u[k]) {
      ConditionalUpdateAt(rows, sid, intent, at, k);
    }
  }

  /** The `payment_sessions` table, changed in place by the two handlers. */
  class Table {
    var rows: seq<Row>

    constructor ()
      ensures rows == []
    {
      rows := [];
    }

    /** Every row has the shape the handlers write. */
    predicate Valid()
      reads this
    {
      AllWellFormed(rows)
    }

    /**
     * `insert(r)`: appends one row, or reports the store's error (`fault`) and leaves the
     * table as it was.
     */
    method Insert(r: Row, fault: bool) returns (ok: bool)
      modifies this
      ensures ok == !fault
      ensures rows == if ok then old(rows) + [r] else old(rows)
      ensures old(Valid()) && WellFormed(r) ==> Valid()
    {
      ok := !fault;
      if ok {
        rows := rows + [r];
      }
    }

    /**
     * `update({status: 'paid', ...}).eq('stripe_session_id', sid).eq('status', 'pending')`:
     * on an error (`fault`) nothing changes and `None` is returned; otherwise every matching
     * row is settled and the number of rows updated is returned.
     */
    method MarkPaid(sid: string, intent: Option<string>, at: string, fault: bool) returns (updated: Option<nat>)
      modifies this
      ensures fault ==> updated == None && rows == old(rows)
      ensures !fault ==> updated == Some(CountMatching(old(rows), sid))
      ensures !fault ==> rows == ConditionalUpdate(old(rows), sid, intent, at)
      ensures old(Valid()) ==> Valid()
    {
      if fault {
        return None;
      }
      ghost var before := rows;
      var t := rows;
      var count: nat := 0;
      var i := 0;
      while i < |t|
        invariant 0 <= i <= |t| == |before|
        invariant forall k :: 0 <= k < i ==> t[k] == Settled(before[k], sid, intent, at)
        invariant forall k :: i <= k < |t| ==> t[k] == before[k]
        invariant count == CountMatching(before[..i], sid)
      {
        assert before[..i + 1][..i] == before[..i];
        if Matches(t[i], sid) {
          t := t[i := Settle(t[i], intent, at)];
          count := count + 1;
        }
        i := i + 1;
      }
      assert before[..i] == before;
      forall k | 0 <= k < |t| ensures t[k] == ConditionalUpdate(before, sid, intent, at)[k] {
        ConditionalUpdateAt(before, sid, intent, at, k);
      }
      rows := t;
      if old(Valid()) {
        UpdatePreservesWellFormed(before, sid, intent, at);
      }
      updated := Some(count);
    }
  }
}

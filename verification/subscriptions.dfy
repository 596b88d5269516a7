/**
 * The subscription record of packages/functions/src/subscriptions/interface.ts
 * and the subscribers table of subscriptions/dynamodb.ts: keyed by `email`,
 * with `pk` defaulting to '1' and `status` to ENABLED.
 */
module Subscriptions {
  import opened Wrappers

  datatype SubscriptionStatus = ENABLED | DISABLED {
    /** The stored text of each status. */
    function Text(): string {
      match this
      case ENABLED => "Subscribed"
      case DISABLED => "Unsubscribed"
    }
  }

  /** The partition every subscription is written to and the broadcast reads. */
  const DefaultPk: string := "1"

  datatype Subscription = Subscription(
    email: string,
    pk: string,
    status: SubscriptionStatus,
    id: string,
    createdAt: int,
    updatedAt: Option<int>,
    deletedAt: Option<int>)

  /** The subscribers table: email -> record. */
  type Store = map<string, Subscription>

  /** The key condition of every status-index query: partition '1', status ENABLED. */
  predicate IsRecipient(s: Subscription) {
    s.pk == DefaultPk && s.status == ENABLED
  }

  /** The projection `attributes: ['id', 'status', 'email']`. */
  datatype RecipientRow = RecipientRow(id: string, status: SubscriptionStatus, email: string)

  function Project(s: Subscription): RecipientRow {
    RecipientRow(s.id, s.status, s.email)
  }

  /** The rows a status-index query yields from a stretch of the table, in order. */
  function MatchingRows(rows: seq<Subscription>): seq<RecipientRow> {
    if |rows| == 0 then []
    else (if IsRecipient(rows[0]) then [Project(rows[0])] else []) + MatchingRows(rows[1..])
  }

  /**
   * A query's rows are exactly the projections of the recipients among the
   * rows it reads: every one is ENABLED, and no recipient is missed.
   */
  lemma {:induction false} MatchingRowsMeaning(rows: seq<Subscription>)
    ensures forall x :: x in MatchingRows(rows) ==> x.status == ENABLED
    ensures forall s :: s in rows && IsRecipient(s) ==> Project(s) in MatchingRows(rows)
    ensures forall x :: x in MatchingRows(rows) ==> exists s :: s in rows && IsRecipient(s) && x == Project(s)
  {
    if |rows| > 0 {
      MatchingRowsMeaning(rows[1..]);
      assert forall s :: s in rows ==> s == rows[0] || s in rows[1..];
    }
  }
}

/**
 * The server's in-memory store `{ leads, lastUpdated }` and the request
 * handlers that read or change it: the webhook that appends a lead,
 * `GET /api/stats`, `GET /api/leads` and `DELETE /api/leads`. Instants are
 * milliseconds since the epoch, passed in as `now`.
 */
module LeadStore {
  import opened Js
  import opened Normalizer
  import opened Stats

  /** The period `GET /api/stats` reports when the query names none. */
  const DefaultPeriod: string := "maaned"

  /** The page size of `GET /api/leads` when the query gives none. */
  const DefaultLimit: int := 50

  // ---------------------------------------------------------------------------
  // The period of the statistics
  // ---------------------------------------------------------------------------

  /** `req.query.period || 'maaned'` */
  function PeriodOf(q: Value): (v: Value)
    ensures Truthy(v)
    ensures Truthy(q) ==> v == q
    ensures !Truthy(q) ==> v == Str(DefaultPeriod)
  {
    Or(q, Str(DefaultPeriod))
  }

  /** The number of days of a period: a day, a week, a month of 30 days, or 0 (all time) for any other value. */
  function PeriodDays(period: Value): (d: nat)
    ensures d == 1 <==> period == Str("dag")
    ensures d == 7 <==> period == Str("uge")
    ensures d == 30 <==> period == Str("maaned")
    ensures d == 0 <==> period !in {Str("dag"), Str("uge"), Str("maaned")}
  {
    if period == Str("dag") then 1
    else if period == Str("uge") then 7
    else if period == Str("maaned") then 30
    else 0
  }

  /** A request without a period gets the statistics of the last 30 days. */
  lemma DefaultPeriodIsMonth(q: Value)
    requires !Truthy(q)
    ensures PeriodDays(PeriodOf(q)) == 30
  {
  }

  /** Any period other than the three names, "alle" among them, means all time: no lead is filtered out. */
  lemma OtherPeriodIsAllTime(q: Value, leads: seq<Lead>, now: int)
    requires Truthy(q) && q !in {Str("dag"), Str("uge"), Str("maaned")}
    ensures PeriodDays(PeriodOf(q)) == 0
    ensures Window(leads, now, PeriodDays(PeriodOf(q))) == leads
  {
  }

  // ---------------------------------------------------------------------------
  // Paging
  // ---------------------------------------------------------------------------

  /** How `slice` reads an index: counted from the end when negative, then clamped to `[0, len]`. */
  function SliceIndex(k: int, len: nat): (r: nat)
    ensures r <= len
  {
    if k < 0 then (if len + k < 0 then 0 else len + k)
    else if k > len then len
    else k
  }

  /** `s.slice(start, end)`: the elements from the resolved start up to the resolved end, none when they cross. */
  function Slice<T>(s: seq<T>, start: int, end: int): (r: seq<T>)
    ensures |r| <= |s|
    ensures forall x :: x in r ==> x in s
  {
    var from, to := SliceIndex(start, |s|), SliceIndex(end, |s|);
    if from < to then s[from..to] else []
  }

  /** `parseInt(req.query.limit) || 50`: never 0, and 50 for a missing or empty parameter. */
  function LimitOf(q: Value): (limit: int)
    ensures limit != 0
    ensures !Truthy(q) ==> limit == DefaultLimit
  {
    if !Truthy(q) then FalsyParsesToNothing(q); IntOr(ParseIntValue(q), DefaultLimit)
    else IntOr(ParseIntValue(q), DefaultLimit)
  }

  /** `parseInt(req.query.offset) || 0`: 0 for a missing or empty parameter. */
  function OffsetOf(q: Value): (offset: int)
    ensures !Truthy(q) ==> offset == 0
  {
    if !Truthy(q) then FalsyParsesToNothing(q); IntOr(ParseIntValue(q), 0)
    else IntOr(ParseIntValue(q), 0)
  }

  /** A query parameter written as a decimal integer is read as that integer; a written 0 limit falls back to 50. */
  lemma NumericQuery(n: int)
    ensures OffsetOf(Str(IntToString(n))) == n
    ensures LimitOf(Str(IntToString(n))) == if n != 0 then n else DefaultLimit
  {
    ParseIntOfNumber(n);
    assert ParseIntValue(Str(IntToString(n))) == ParseIntValue(Num(n));
  }

  /** `leads.slice().reverse().slice(offset, offset + limit)` */
  function Paged(leads: seq<Lead>, limit: int, offset: int): (r: seq<Lead>)
    ensures |r| <= |leads|
    ensures forall l :: l in r ==> l in leads
  {
    var newestFirst := Reversed(leads);
    assert forall l :: l in newestFirst ==> l in leads by {
      forall l | l in newestFirst ensures l in leads {
        var i :| 0 <= i < |newestFirst| && newestFirst[i] == l;
        assert leads[|leads| - 1 - i] == l;
      }
    }
    Slice(newestFirst, offset, offset + limit)
  }

  /** The page `GET /api/leads` answers with for the query's `limit` and `offset`. */
  function Page(leads: seq<Lead>, limitQ: Value, offsetQ: Value): (r: seq<Lead>)
    ensures |r| <= |leads|
    ensures forall l :: l in r ==> l in leads
  {
    Paged(leads, LimitOf(limitQ), OffsetOf(offsetQ))
  }

  /**
   * With a positive limit and a non-negative offset, a page holds the leads
   * that come `offset` places after the newest one, newest first, as many as
   * the limit allows and the store still has.
   */
  lemma PageOfNewest(leads: seq<Lead>, limit: int, offset: int)
    requires 0 < limit && 0 <= offset
    ensures |Paged(leads, limit, offset)| ==
              if |leads| <= offset then 0
              else if |leads| - offset < limit then |leads| - offset
              else limit
    ensures forall i :: 0 <= i < |Paged(leads, limit, offset)| ==>
              Paged(leads, limit, offset)[i] == leads[|leads| - 1 - offset - i]
  {
  }

  /** Two consecutive pages of the same size together make one page twice as large. */
  lemma ConsecutivePages(leads: seq<Lead>, limit: int, offset: int)
    requires 0 <= limit && 0 <= offset
    ensures Paged(leads, limit, offset) + Paged(leads, limit, offset + limit) == Paged(leads, 2 * limit, offset)
  {
    var s := Reversed(leads);
    var a, b, c := SliceIndex(offset, |s|), SliceIndex(offset + limit, |s|), SliceIndex(offset + 2 * limit, |s|);
    assert a <= b <= c;
    if a < c {
      if b == c {
        assert s[a..b] == s[a..c];
      } else {
        assert s[a..b] + s[b..c] == s[a..c];
      }
    }
  }

  /** A query without limit and offset gets the same leads as the statistics' `recentLeads`: the 50 newest, newest first. */
  lemma DefaultPageIsRecent(leads: seq<Lead>)
    ensures Page(leads, Undefined, Undefined) == RecentLeads(leads)
  {
    assert LimitOf(Undefined) == DefaultLimit && OffsetOf(Undefined) == 0;
    var p := Paged(leads, DefaultLimit, 0);
    var r := RecentLeads(leads);
    PageOfNewest(leads, DefaultLimit, 0);
    assert |p| == |r|;
    assert forall i :: 0 <= i < |p| ==> p[i] == r[i];
  }

  /**
   * A negative limit with no offset does not give an empty page: the end
   * index counts from the end, so the page is every lead but the `-limit`
   * oldest ones.
   */
  lemma NegativeLimit(leads: seq<Lead>, k: nat)
    requires 0 < k <= |leads|
    ensures Paged(leads, -(k as int), 0) == Reversed(leads)[..|leads| - k]
  {
  }

  // ---------------------------------------------------------------------------
  // The store
  // ---------------------------------------------------------------------------

  /** The server's store: every lead received so far, oldest first, and the instant of the last change. */
  class Store {
    var leads: seq<Lead>
    var lastUpdated: Option<int>

    /** Every stored lead is one the normalizer built, and a store that holds leads has been changed. */
    ghost predicate Valid()
      reads this
    {
      && (forall l :: l in leads ==> WellFormed(l))
      && (leads != [] ==> lastUpdated.Some?)
    }

    /** `{ leads: [], lastUpdated: null }` */
    constructor()
      ensures Valid()
      ensures leads == [] && lastUpdated == None
    {
      leads := [];
      lastUpdated := None;
    }

    /**
     * `POST /webhook/scoreapp`: normalise the payload, append the lead, stamp
     * the store, and answer with the lead's id.
     */
    method ReceiveWebhook(p: Payload, now: int) returns (id: Value)
      requires Valid()
      modifies this
      ensures Valid()
      ensures leads == old(leads) + [Normalize(p, now)]
      ensures lastUpdated == Some(now)
      ensures id == Normalize(p, now).id && Truthy(id)
    {
      var lead := Normalize(p, now);
      leads := leads + [lead];
      lastUpdated := Some(now);
      id := lead.id;
    }

    /** `DELETE /api/leads`: forget every lead and stamp the store. */
    method ClearAll(now: int)
      modifies this
      ensures Valid()
      ensures leads == [] && lastUpdated == Some(now)
    {
      leads := [];
      lastUpdated := Some(now);
    }

    /**
     * `GET /api/stats`: the period asked for (by default the last 30 days),
     * the instant of the last change, the size of the store, and the
     * statistics over that period.
     */
    method GetStats(periodQ: Value, now: int) returns (period: Value, updated: Option<int>, totalLeads: int, st: Stats)
      ensures period == PeriodOf(periodQ) && Truthy(period)
      ensures updated == lastUpdated
      ensures totalLeads == |leads|
      // the statistics of `calcStats` over the window of the period
      ensures IsStatsOf(st, leads, now, PeriodDays(period))
      // and how they relate to the whole store
      ensures st.completed <= totalLeads
      ensures PeriodDays(period) == 0 ==> st.completed == totalLeads
      ensures |st.series| == PeriodDays(period)
    {
      period := PeriodOf(periodQ);
      updated := lastUpdated;
      totalLeads := |leads|;
      st := CalcStats(leads, now, PeriodDays(period));
    }

    /** `GET /api/leads`: the size of the store and one page of its leads, newest first; in a valid store every one well-formed. */
    method ListLeads(limitQ: Value, offsetQ: Value) returns (total: nat, page: seq<Lead>)
      ensures total == |leads|
      ensures page == Page(leads, limitQ, offsetQ)
      ensures |page| <= total
      ensures Valid() ==> forall l :: l in page ==> WellFormed(l)
    {
      total := |leads|;
      page := Page(leads, limitQ, offsetQ);
    }
  }

  /** A lead the webhook has just stored counts in the statistics of every period asked for at that instant. */
  lemma ReceivedLeadIsCounted(leads: seq<Lead>, p: Payload, now: int, periodQ: Value)
    ensures Window(leads + [Normalize(p, now)], now, PeriodDays(PeriodOf(periodQ))) ==
            Window(leads, now, PeriodDays(PeriodOf(periodQ))) + [Normalize(p, now)]
  {
    FreshLeadInWindow(leads, Normalize(p, now), now, PeriodDays(PeriodOf(periodQ)));
  }
}

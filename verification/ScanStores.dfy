/** The stores behind scan ingestion: Redis dedup markers and daily ride sets,
    the Postgres `scan_events` table and its outbox. Each function is one atomic
    statement sent to a store. */
module ScanStores {

  type TraceId = string

  datatype ScanEvent = ScanEvent(userId: string, rideId: string, timestamp: int, traceId: TraceId, ticketId: string)

  /** One member of the Redis set `user:<userId>:rides:<day>`. */
  datatype RideEntry = RideEntry(userId: string, rideId: string, day: int)

  datatype OutboxRow = OutboxRow(traceId: TraceId, userEmail: string, rideId: string, scannedAt: int, attempts: nat)

  datatype Stores = Stores(
    marks: set<TraceId>,             // live dedup markers
    rows: map<TraceId, ScanEvent>,   // scan_events, UNIQUE(trace_id)
    sets: set<RideEntry>,            // the daily ride sets
    outbox: seq<OutboxRow>           // scan_events_outbox, oldest first
  )

  const EmptyStores := Stores({}, map[], {}, [])

  const MILLIS_PER_DAY := 86_400_000

  /** The calendar day of a time in milliseconds. */
  function DayOf(millis: int): int { millis / MILLIS_PER_DAY }

  function EntryOf(e: ScanEvent): RideEntry { RideEntry(e.userId, e.rideId, DayOf(e.timestamp)) }

  function OutboxEntry(row: OutboxRow): RideEntry { RideEntry(row.userEmail, row.rideId, DayOf(row.scannedAt)) }

  function RowFor(e: ScanEvent): OutboxRow { OutboxRow(e.traceId, e.userId, e.rideId, e.timestamp, 0) }

  predicate Parked(outbox: seq<OutboxRow>, t: TraceId) {
    exists i :: 0 <= i < |outbox| && outbox[i].traceId == t
  }

  // ---- Redis ----

  /** SETNX: the marker is live afterwards whether or not it was before. */
  function Claim(st: Stores, t: TraceId): Stores { st.(marks := st.marks + {t}) }

  function ClearMark(st: Stores, t: TraceId): Stores { st.(marks := st.marks - {t}) }

  function AddRide(st: Stores, entry: RideEntry): Stores { st.(sets := st.sets + {entry}) }

  // ---- Postgres ----

  /** INSERT ... ON CONFLICT (trace_id) DO NOTHING. */
  function InsertRow(st: Stores, e: ScanEvent): Stores {
    if e.traceId in st.rows then st else st.(rows := st.rows[e.traceId := e])
  }

  /** INSERT ... ON CONFLICT (trace_id) DO NOTHING; new rows are the youngest. */
  function Park(st: Stores, e: ScanEvent): Stores {
    if Parked(st.outbox, e.traceId) then st else st.(outbox := st.outbox + [RowFor(e)])
  }

  function BumpRows(outbox: seq<OutboxRow>, t: TraceId): (bumped: seq<OutboxRow>)
    ensures |bumped| == |outbox|
    ensures forall i :: 0 <= i < |outbox| ==>
              bumped[i] == if outbox[i].traceId == t then outbox[i].(attempts := outbox[i].attempts + 1) else outbox[i]
  {
    seq(|outbox|, i requires 0 <= i < |outbox| =>
      if outbox[i].traceId == t then outbox[i].(attempts := outbox[i].attempts + 1) else outbox[i])
  }

  function Bump(st: Stores, t: TraceId): Stores { st.(outbox := BumpRows(st.outbox, t)) }

  /** DELETE ... WHERE trace_id = t. */
  function Without(outbox: seq<OutboxRow>, t: TraceId): (kept: seq<OutboxRow>)
    ensures forall r :: r in kept <==> r in outbox && r.traceId != t
    ensures |kept| <= |outbox|
  {
    if outbox == [] then []
    else if outbox[0].traceId == t then Without(outbox[1..], t)
    else [outbox[0]] + Without(outbox[1..], t)
  }

  function Unpark(st: Stores, t: TraceId): Stores { st.(outbox := Without(st.outbox, t)) }

  // ---- What the documentation promises of a trace ----

  /** The scan is durable and its ride is counted, or its count is parked. */
  predicate Processed(st: Stores, t: TraceId) {
    t in st.rows && (EntryOf(st.rows[t]) in st.sets || Parked(st.outbox, t))
  }

  /** The daily sets one gets by recomputing them from scan_events. */
  function Projection(rows: map<TraceId, ScanEvent>): set<RideEntry> {
    set t | t in rows :: EntryOf(rows[t])
  }

  /** Every parked row restates the stored scan of its trace. */
  predicate Restates(st: Stores, r: OutboxRow) {
    r.traceId in st.rows && OutboxEntry(r) == EntryOf(st.rows[r.traceId])
  }

  /** Deleting the parked row of a trace whose ride is counted undoes no other trace. */
  lemma UnparkKeepsProcessed(st: Stores, t: TraceId, u: TraceId)
    requires Processed(st, u)
    requires t in st.rows ==> EntryOf(st.rows[t]) in st.sets
    ensures Processed(Unpark(st, t), u)
  {
    if u != t && Parked(st.outbox, u) {
      var i :| 0 <= i < |st.outbox| && st.outbox[i].traceId == u;
      assert st.outbox[i] in Without(st.outbox, t);
    }
  }

  /** Counting an attempt changes no trace's standing. */
  lemma BumpKeepsProcessed(st: Stores, t: TraceId, u: TraceId)
    ensures Processed(Bump(st, t), u) == Processed(st, u)
  {
    var bumped := BumpRows(st.outbox, t);
    if Parked(st.outbox, u) {
      var i :| 0 <= i < |st.outbox| && st.outbox[i].traceId == u;
      assert bumped[i].traceId == u;
    }
    if Parked(bumped, u) {
      var i :| 0 <= i < |bumped| && bumped[i].traceId == u;
      assert st.outbox[i].traceId == u;
    }
  }

  /** Parking leaves every earlier trace as it was and parks its own. */
  lemma ParkKeepsProcessed(st: Stores, e: ScanEvent, u: TraceId)
    ensures Processed(st, u) ==> Processed(Park(st, e), u)
    ensures Parked(Park(st, e).outbox, e.traceId)
  {
    var after := Park(st, e).outbox;
    if Parked(st.outbox, u) {
      var i :| 0 <= i < |st.outbox| && st.outbox[i].traceId == u;
      assert after[i].traceId == u;
    }
    if !Parked(st.outbox, e.traceId) {
      assert after[|st.outbox|].traceId == e.traceId;
    }
  }
}

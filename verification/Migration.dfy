/** The job_type backfill of old databases (internal/repository/schema.go) against the run-time rules. */
module Migration {
  import opened Basics
  import opened Messages
  import opened MessageStore
  import opened Delivery
  import opened Errors

  /** json_extract(payload, '$.job_type') guarded by json_valid: SQL NULL unless the key holds a
      value, and a value that is not a string comes back as its text. */
  function JsonExtract(p: Payload): Option<string> {
    match JobFieldOf(p)
    case Text(v) => Some(v)
    case NotText(rendering) => Some(rendering)
    case _ => None
  }

  function BackfillFromPayload(t: seq<Row>): seq<Row> {
    seq(|t|, k requires 0 <= k < |t| =>
      if t[k].jobType == "" && JsonExtract(t[k].payload).Some?
      then t[k].(jobType := JsonExtract(t[k].payload).value) else t[k])
  }

  function BackfillDefault(t: seq<Row>): seq<Row> {
    seq(|t|, k requires 0 <= k < |t| => if t[k].jobType == "" then t[k].(jobType := PROCESS_OUTBOUND) else t[k])
  }

  /** A payload the two readers of `job_type` understand alike: the key is absent, null or a string, or
      the text is no object; a value of another type counts only if its text happens to be what the
      default would have written. */
  predicate ReadAlike(p: Payload) {
    var f := JobFieldOf(p);
    f.NotText? ==> f.rendering == "" || f.rendering == PROCESS_OUTBOUND
  }

  function Migrated(t: seq<Row>): seq<Row> {
    BackfillDefault(BackfillFromPayload(t))
  }

  /** Runs the two updates in place, and leaves every row with exactly the column it had, or else the
      one the run-time resolver gives, where the readers agree. */
  method MigrateMessagesJobType(db: Repository)
    requires db.Valid()
    modifies db
    ensures db.Valid()
    ensures db.rows == Migrated(old(db.rows))
    ensures forall k :: 0 <= k < |db.rows| ==> db.rows[k].jobType != ""
    ensures forall k :: 0 <= k < |db.rows| && ReadAlike(old(db.rows)[k].payload) ==>
              db.rows[k] == Stamped(old(db.rows)[k])
  {
    db.rows := BackfillFromPayload(db.rows);
    db.rows := BackfillDefault(db.rows);
  }

  /** A row with an empty column ends up with the resolver's value exactly when its payload is read
      alike; a stamped row is left alone; nothing but the column changes. */
  lemma MigrationMatchesResolverExactly(t: seq<Row>, k: nat)
    requires k < |t|
    ensures |Migrated(t)| == |t|
    ensures Migrated(t)[k] == t[k].(jobType := Migrated(t)[k].jobType)
    ensures t[k].jobType != "" ==> Migrated(t)[k] == t[k]
    ensures t[k].jobType == "" ==>
              (Migrated(t)[k].jobType == ResolveJobType("", t[k].payload) <==> ReadAlike(t[k].payload))
  {
    var u := BackfillFromPayload(t);
    assert u[k].payload == t[k].payload;
    assert Migrated(t)[k] == if u[k].jobType == "" then u[k].(jobType := PROCESS_OUTBOUND) else u[k];
  }

  /** What the migration writes: nothing into a column that is stamped, else the text of the job_type it finds,
      of whatever type, unless that is empty, and else the default. */
  lemma MigratedColumnExactly(t: seq<Row>, k: nat)
    requires k < |t|
    ensures |Migrated(t)| == |t|
    ensures Migrated(t)[k].jobType
         == if t[k].jobType != "" then t[k].jobType
            else
              match JobFieldOf(t[k].payload)
              case Text(v) => if v != "" then v else "process_outbound"
              case NotText(rendering) => if rendering != "" then rendering else "process_outbound"
              case _ => "process_outbound"
  {
    assert BackfillFromPayload(t)[k].payload == t[k].payload;
  }

  /** The dispatcher takes a row down the same path before and after the migration, exactly when the
      column was stamped already or the payload is read alike. */
  lemma DispatchUnchangedExactly(t: seq<Row>, k: nat)
    requires k < |t|
    ensures DispatchJobType(Migrated(t)[k]) == DispatchJobType(t[k])
       <==> t[k].jobType != "" || ReadAlike(t[k].payload)
  {
    MigrationMatchesResolverExactly(t, k);
  }

  /** Running it again changes nothing. */
  lemma MigrationIdempotent(t: seq<Row>)
    ensures Migrated(Migrated(t)) == Migrated(t)
    ensures forall k :: 0 <= k < |t| ==> Migrated(t)[k].jobType != ""
  {
    var u := Migrated(t);
    assert forall k :: 0 <= k < |t| ==> u[k].jobType != "";
    assert BackfillFromPayload(u) == u;
    assert BackfillDefault(u) == u;
  }

  /** Where the two part: a transmit text that declares a job_type of another type, a number say. Before
      the migration the worker delivers it like any document; the migrated row is refused as an unknown
      job, or taken for a receipt job, which it is not. */
  lemma DeclaredNumberStopsDelivery(c: Config, partners: Partners, row: Row, stamp: string)
    requires row.jobType == "" && row.payload.TransmitText? && !ReadAlike(row.payload)
    ensures Plan(c, partners, row, stamp) == PlanBusiness(c, partners, row, stamp)
    ensures Plan(c, partners, Migrated([row])[0], stamp) == Err(New(Validation))
  {
    var t := BackfillFromPayload([row]);
    assert t[0].jobType == row.payload.declared.rendering;
    assert Migrated([row])[0] == t[0];
  }
}

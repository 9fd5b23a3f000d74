/**
 * The print-job board (the `jobs` object of app.js:430-554): the kanban columns
 * and their counts, the balance on a card and in the edit form, and the status
 * normalisation of the edit form.
 */
module Jobs {
  import opened Wrappers
  import opened Records

  datatype Bucket = Pending | Designing | Printing | Completed

  /** The key of each kanban column and of each count (app.js:439-448). */
  function ColumnKey(b: Bucket): string {
    match b
    case Pending => "Pending"
    case Designing => "Designing"
    case Printing => "Printing"
    case Completed => "Completed"
  }

  predicate IsColumnKey(s: string) {
    s == "Pending" || s == "Designing" || s == "Printing" || s == "Completed"
  }

  /** The legacy name of the Printing status. */
  const LegacyPrinting: string := "Printing/Cutting"

  /** The legacy synonym replaced by its canonical name (app.js:456 and app.js:510). */
  function Normalised(status: string): (s: string)
    ensures status == LegacyPrinting ==> s == "Printing"
    ensures status != LegacyPrinting ==> s == status
    ensures s != LegacyPrinting
  {
    if status == LegacyPrinting then "Printing" else status
  }

  /** The column a job's card goes to (app.js:455-457), with every unknown status falling back to Pending. */
  function Classify(status: string): (b: Bucket)
    ensures IsColumnKey(status) ==> ColumnKey(b) == status
    ensures status == LegacyPrinting ==> b == Printing
    ensures !IsColumnKey(status) && status != LegacyPrinting ==> b == Pending
  {
    var key := Normalised(status);
    if key == "Designing" then Designing
    else if key == "Printing" then Printing
    else if key == "Completed" then Completed
    else Pending
  }

  /** Every column key classifies into its own column. */
  lemma ClassifyColumnKey(b: Bucket)
    ensures Classify(ColumnKey(b)) == b
  {
  }

  /** Normalising first does not move a card, and normalising is idempotent. */
  lemma NormalisedKeepsColumn(status: string)
    ensures Classify(Normalised(status)) == Classify(status)
    ensures Normalised(Normalised(status)) == Normalised(status)
  {
  }

  // ---------------------------------------------------------------------------
  // The fallback as written

  /** Property names every plain JavaScript object inherits from Object.prototype. */
  const InheritedKeys: set<string> := {
    "constructor", "hasOwnProperty", "isPrototypeOf", "propertyIsEnumerable",
    "toString", "toLocaleString", "valueOf", "__proto__",
    "__defineGetter__", "__defineSetter__", "__lookupGetter__", "__lookupSetter__"}

  /**
   * The column lookup as written: `if (!columns[colKey]) colKey = 'Pending'` tests
   * the columns object, which also answers for inherited names. For those the
   * fallback is skipped and `columns[colKey].appendChild` throws: None.
   */
  function ColumnAsWritten(status: string): Option<Bucket> {
    var key := if status == LegacyPrinting then "Printing" else status;
    if key == "Pending" then Some(Pending)
    else if key == "Designing" then Some(Designing)
    else if key == "Printing" then Some(Printing)
    else if key == "Completed" then Some(Completed)
    else if key in InheritedKeys then None
    else Some(Pending)
  }

  /** The code as written agrees with Classify on every status that is not an inherited name. */
  lemma ColumnAsWrittenAgrees(status: string)
    requires status !in InheritedKeys
    ensures ColumnAsWritten(status) == Some(Classify(status))
  {
  }

  /** A job whose status is "toString" breaks the board instead of landing in Pending. */
  lemma InheritedStatusBreaksBoard()
    ensures ColumnAsWritten("toString") == None
    ensures Classify("toString") == Pending
  {
    assert "toString" in InheritedKeys;
  }

  // ---------------------------------------------------------------------------
  // Cards, columns and counts

  /** The balance shown on a card: `totalAmount - (advance || 0)` (app.js:478). */
  function CardBalance(job: Job): int {
    job.totalAmount - job.advance.GetOr(0)
  }

  datatype Card = Card(jobId: int, deadline: string, customerName: string, jobType: string, balance: int)

  function CardOf(job: Job): Card {
    Card(job.id, job.deadline, job.customerName, job.jobType, CardBalance(job))
  }

  /** The cards of column `b`, in the order of the jobs. */
  function Column(jobs: seq<Job>, b: Bucket): seq<Card>
    decreases |jobs|
  {
    if jobs == [] then []
    else
      var last := jobs[|jobs| - 1];
      Column(jobs[..|jobs| - 1], b) + (if Classify(last.status) == b then [CardOf(last)] else [])
  }

  datatype Board = Board(pending: seq<Card>, designing: seq<Card>, printing: seq<Card>, completed: seq<Card>) {
    function Of(b: Bucket): seq<Card> {
      match b
      case Pending => pending
      case Designing => designing
      case Printing => printing
      case Completed => completed
    }

    /** `columns[colKey].appendChild(card)`. */
    function Append(b: Bucket, c: Card): (r: Board)
      ensures r.Of(b) == Of(b) + [c]
      ensures forall b' :: b' != b ==> r.Of(b') == Of(b')
    {
      match b
      case Pending => this.(pending := pending + [c])
      case Designing => this.(designing := designing + [c])
      case Printing => this.(printing := printing + [c])
      case Completed => this.(completed := completed + [c])
    }
  }

  datatype Counts = Counts(pending: nat, designing: nat, printing: nat, completed: nat) {
    function Of(b: Bucket): nat {
      match b
      case Pending => pending
      case Designing => designing
      case Printing => printing
      case Completed => completed
    }

    function Total(): nat {
      pending + designing + printing + completed
    }

    /** `counts[colKey]++`. */
    function Bump(b: Bucket): (r: Counts)
      ensures r.Of(b) == Of(b) + 1
      ensures forall b' :: b' != b ==> r.Of(b') == Of(b')
      ensures r.Total() == Total() + 1
    {
      match b
      case Pending => this.(pending := pending + 1)
      case Designing => this.(designing := designing + 1)
      case Printing => this.(printing := printing + 1)
      case Completed => this.(completed := completed + 1)
    }
  }

  /** The board after the render loop has placed `jobs`, in order. */
  function BoardOf(jobs: seq<Job>): Board
    decreases |jobs|
  {
    if jobs == [] then Board([], [], [], [])
    else
      var last := jobs[|jobs| - 1];
      BoardOf(jobs[..|jobs| - 1]).Append(Classify(last.status), CardOf(last))
  }

  /** The counts that go with a board: one per card in each column. */
  function Tally(board: Board): (c: Counts)
    ensures forall b :: c.Of(b) == |board.Of(b)|
  {
    Counts(|board.pending|, |board.designing|, |board.printing|, |board.completed|)
  }

  lemma TallyAppend(board: Board, b: Bucket, card: Card)
    ensures Tally(board.Append(b, card)) == Tally(board).Bump(b)
  {
  }

  /** The loop's board is the column-by-column filter of the jobs. */
  lemma {:induction false} BoardOfColumns(jobs: seq<Job>, b: Bucket)
    ensures BoardOf(jobs).Of(b) == Column(jobs, b)
    decreases |jobs|
  {
    if jobs != [] {
      BoardOfColumns(jobs[..|jobs| - 1], b);
    }
  }

  /** The four columns together hold one card per job. */
  lemma {:induction false} ColumnsPartition(jobs: seq<Job>)
    ensures |Column(jobs, Pending)| + |Column(jobs, Designing)| + |Column(jobs, Printing)|
            + |Column(jobs, Completed)| == |jobs|
    decreases |jobs|
  {
    if jobs != [] {
      ColumnsPartition(jobs[..|jobs| - 1]);
    }
  }

  /** `renderKanban()` (app.js:435-490) over the jobs the store lists. */
  method RenderKanban(allJobs: seq<Job>) returns (board: Board, counts: Counts)
    ensures forall b :: board.Of(b) == Column(allJobs, b)
    ensures forall b :: counts.Of(b) == |Column(allJobs, b)|
    ensures counts.Total() == |allJobs|
  {
    board := Board([], [], [], []);
    counts := Counts(0, 0, 0, 0);
    for i := 0 to |allJobs|
      invariant board == BoardOf(allJobs[..i])
      invariant counts == Tally(board)
    {
      var job := allJobs[i];
      var colKey := Classify(job.status);
      TallyAppend(board, colKey, CardOf(job));
      counts := counts.Bump(colKey);
      board := board.Append(colKey, CardOf(job));
      assert allJobs[..i + 1][..i] == allJobs[..i];
    }
    assert allJobs[..|allJobs|] == allJobs;
    forall b ensures board.Of(b) == Column(allJobs, b) {
      BoardOfColumns(allJobs, b);
    }
    ColumnsPartition(allJobs);
  }

  // ---------------------------------------------------------------------------
  // Editing a job

  /** The fields of the job form; amounts are the parsed entries, None when blank or not a number. */
  datatype JobForm = JobForm(
    customerName: string,
    contact: string,
    jobType: string,
    totalEntry: Option<int>,
    advanceEntry: Option<int>,
    status: string,
    deadline: string)

  /** `calcBalance()` (app.js:549-553): unparseable amounts count as zero. */
  function FormBalance(f: JobForm): int {
    f.totalEntry.GetOr(0) - f.advanceEntry.GetOr(0)
  }

  /** The form as `editJob` fills it (app.js:504-511), the legacy status normalised. */
  function EditForm(job: Job): JobForm {
    JobForm(job.customerName, job.contact, job.jobType, Some(job.totalAmount), job.advance,
            Normalised(job.status), job.deadline)
  }

  /** The record `saveJob` writes under `id` (app.js:522-536); dateCreated is set to `now`. */
  function SavedRecord(id: int, f: JobForm, now: int): Job {
    Job(id, f.customerName, f.contact, f.jobType, f.totalEntry.GetOr(0),
        Some(f.advanceEntry.GetOr(0)), f.status, f.deadline, now)
  }

  /** The balance the edit form shows is the balance on the job's card. */
  lemma EditFormBalance(job: Job)
    ensures FormBalance(EditForm(job)) == CardBalance(job)
  {
  }

  /**
   * Opening a job and saving it unchanged stores the canonical status, keeps its
   * column, its balance and its other fields, and stamps dateCreated with `now`.
   */
  lemma EditThenSave(job: Job, now: int)
    ensures var saved := SavedRecord(job.id, EditForm(job), now);
      && saved.status == Normalised(job.status)
      && (job.status == LegacyPrinting ==> saved.status == "Printing")
      && Classify(saved.status) == Classify(job.status)
      && CardBalance(saved) == CardBalance(job)
      && saved == job.(advance := Some(job.advance.GetOr(0)), status := Normalised(job.status), dateCreated := now)
  {
  }
}

/** The pure part of the bors database client (`bors/hartex-bors-database/src/client.rs`):
    the build-status codec, the conversions of database rows into domain values, the row
    a new try build and a new pull request are stored as, the repository key builds are
    found by, and the outcome of `get_or_create_pull_request`. The database itself is given
    as the rows a query returns. */
module BorsClient {
  import opened Wrappers

  const TWO_31: int := 0x8000_0000
  const TWO_32: int := 0x1_0000_0000
  const TWO_64: int := 0x1_0000_0000_0000_0000

  predicate IsI32(n: int) {
    -TWO_31 <= n < TWO_31
  }

  predicate IsU64(n: int) {
    0 <= n < TWO_64
  }

  /** `n as u64` for an `i32`: sign extension, so a negative value wraps around. */
  function I32AsU64(n: int): (r: int)
    requires IsI32(n)
    ensures IsU64(r)
    ensures n >= 0 ==> r == n
    ensures n < 0 ==> r == n + TWO_64
  {
    if n >= 0 then n else n + TWO_64
  }

  /** `n as i32` for a `u64`: the low 32 bits, read as a two's-complement number. */
  function U64AsI32(n: int): (r: int)
    requires IsU64(n)
    ensures IsI32(r)
    ensures (r - n) % TWO_32 == 0
  {
    var low := n % TWO_32;
    if low >= TWO_31 then low - TWO_32 else low
  }

  /** A pull-request number below 2^31 survives the round trip through the `i32` column. */
  lemma NumberRoundTrip(n: int)
    requires 0 <= n < TWO_31
    ensures U64AsI32(n) == n && I32AsU64(U64AsI32(n)) == n
  {
  }

  /** A larger number does not: 2^31 is stored as -2^31 and read back as 2^64 - 2^31. */
  lemma LargeNumberWraps()
    ensures U64AsI32(TWO_31) == -TWO_31
    ensures I32AsU64(U64AsI32(TWO_31)) == TWO_64 - TWO_31
  {
  }

  // ---------------------------------------------------------------------------------------
  // Build status

  /** `BorsBuildStatus`. */
  datatype BuildStatus = Pending | Success | Failure | Cancelled

  /** `build_status_to_database`. */
  function StatusToDatabase(s: BuildStatus): (r: string)
    ensures IsDatabaseStatus(r)
  {
    match s
    case Pending => "pending"
    case Success => "success"
    case Failure => "failure"
    case Cancelled => "cancelled"
  }

  /** The four strings the status column holds. */
  predicate IsDatabaseStatus(s: string) {
    s == "pending" || s == "success" || s == "failure" || s == "cancelled"
  }

  /** `build_status_from_database`: any other string is `unreachable!()`. */
  function StatusFromDatabase(s: string): (r: BuildStatus)
    requires IsDatabaseStatus(s)
    ensures StatusToDatabase(r) == s
  {
    match s
    case "pending" => Pending
    case "success" => Success
    case "failure" => Failure
    case "cancelled" => Cancelled
  }

  /** Decoding undoes encoding. */
  lemma StatusRoundTrip(s: BuildStatus)
    ensures StatusFromDatabase(StatusToDatabase(s)) == s
  {
  }

  /** Distinct statuses are stored as distinct strings. */
  lemma StatusEncodingInjective(a: BuildStatus, b: BuildStatus)
    requires StatusToDatabase(a) == StatusToDatabase(b)
    ensures a == b
  {
    StatusRoundTrip(a);
    StatusRoundTrip(b);
  }

  // ---------------------------------------------------------------------------------------
  // Rows and domain values

  /** A time without a zone, as stored, and the same time read as UTC. */
  datatype NaiveDateTime = NaiveDateTime(seconds: int)
  datatype UtcDateTime = UtcDateTime(naive: NaiveDateTime)

  /** `datetime_from_database`: the stored time is taken to be UTC. */
  function DateTimeFromDatabase(t: NaiveDateTime): (r: UtcDateTime)
    ensures r.naive == t
  {
    UtcDateTime(t)
  }

  /** A row of the `build` table. */
  datatype BuildRow = BuildRow(id: int, repository: string, branch: string, commitHash: string,
                               status: string, createdAt: NaiveDateTime)

  /** `BorsBuild`. */
  datatype BorsBuild = BorsBuild(id: int, repository: string, branch: string, commitHash: string,
                                 status: BuildStatus, createdAt: UtcDateTime)

  /** A row of the `pull_request` table; `number` is an `i32` column. */
  datatype PullRequestRow = PullRequestRow(id: int, repository: string, number: int,
                                           tryBuild: Option<int>, createdAt: NaiveDateTime)

  /** `BorsPullRequest`; `number` is a `u64`. */
  datatype BorsPullRequest = BorsPullRequest(id: int, repository: string, number: int,
                                             tryBuild: Option<BorsBuild>, createdAt: UtcDateTime)

  /** `build_from_database`: the identifying columns are copied, the status decoded and
      the time read as UTC. */
  function BuildFromDatabase(row: BuildRow): (b: BorsBuild)
    requires IsDatabaseStatus(row.status)
    ensures b.id == row.id && b.repository == row.repository
    ensures b.branch == row.branch && b.commitHash == row.commitHash
    ensures StatusToDatabase(b.status) == row.status
    ensures b.createdAt.naive == row.createdAt
  {
    BorsBuild(row.id, row.repository, row.branch, row.commitHash,
              StatusFromDatabase(row.status), DateTimeFromDatabase(row.createdAt))
  }

  /** `pr_from_database`: the related build, if any, is converted as well, and the number
      is cast from `i32` to `u64`. */
  function PrFromDatabase(pr: PullRequestRow, build: Option<BuildRow>): (r: BorsPullRequest)
    requires IsI32(pr.number)
    requires build.Some? ==> IsDatabaseStatus(build.value.status)
    ensures r.id == pr.id && r.repository == pr.repository
    ensures r.number == I32AsU64(pr.number)
    ensures r.tryBuild.Some? <==> build.Some?
    ensures build.Some? ==> r.tryBuild.value == BuildFromDatabase(build.value)
    ensures r.createdAt.naive == pr.createdAt
  {
    BorsPullRequest(pr.id, pr.repository, I32AsU64(pr.number),
                    match build case None => None case Some(b) => Some(BuildFromDatabase(b)),
                    DateTimeFromDatabase(pr.createdAt))
  }

  /** Converting a row back and forth: the row of a converted build is the original. */
  lemma BuildRowRecoverable(row: BuildRow)
    requires IsDatabaseStatus(row.status)
    ensures var b := BuildFromDatabase(row);
      BuildRow(b.id, b.repository, b.branch, b.commitHash, StatusToDatabase(b.status), b.createdAt.naive) == row
  {
  }

  // ---------------------------------------------------------------------------------------
  // Queries

  /** The repository key, `"{owner}/{repository}"`. */
  function RepositoryKey(owner: string, repository: string): (r: string)
    ensures |r| == |owner| + 1 + |repository| && r[|owner|] == '/'
  {
    owner + "/" + repository
  }

  /** The position of the first `/`, or the length when there is none. */
  function SlashIndex(s: string): (i: nat)
    ensures i <= |s|
  {
    if s == [] || s[0] == '/' then 0 else 1 + SlashIndex(s[1..])
  }

  /** The first `/` of a key is the one after the owner. */
  lemma {:induction false} SlashAfterOwner(owner: string, repository: string)
    requires '/' !in owner
    ensures SlashIndex(RepositoryKey(owner, repository)) == |owner|
  {
    if owner != [] {
      assert RepositoryKey(owner, repository)[1..] == RepositoryKey(owner[1..], repository);
      SlashAfterOwner(owner[1..], repository);
    }
  }

  /** An owner name holds no `/`, so the key determines owner and repository. */
  lemma RepositoryKeyInjective(o1: string, r1: string, o2: string, r2: string)
    requires '/' !in o1 && '/' !in o2
    requires RepositoryKey(o1, r1) == RepositoryKey(o2, r2)
    ensures o1 == o2 && r1 == r2
  {
    var k := RepositoryKey(o1, r1);
    SlashAfterOwner(o1, r1);
    SlashAfterOwner(o2, r2);
    assert o1 == k[..|o1|] == o2;
    assert r1 == k[|o1| + 1..] == r2;
  }

  /** A build row matches `find_build`'s filter. */
  predicate MatchesBuild(row: BuildRow, owner: string, repository: string, branch: string, commit: string) {
    row.repository == RepositoryKey(owner, repository) && row.branch == branch && row.commitHash == commit
  }

  /** `find_build`: the first stored build of that repository, branch and commit, if any. */
  function FindBuild(rows: seq<BuildRow>, owner: string, repository: string, branch: string, commit: string)
    : (r: Option<BorsBuild>)
    requires forall i :: 0 <= i < |rows| ==> IsDatabaseStatus(rows[i].status)
    ensures r.Some? <==> exists i :: 0 <= i < |rows| && MatchesBuild(rows[i], owner, repository, branch, commit)
    ensures r.Some? ==>
      r.value.repository == RepositoryKey(owner, repository)
      && r.value.branch == branch && r.value.commitHash == commit
    ensures r.Some? ==> exists i :: (0 <= i < |rows|
      && MatchesBuild(rows[i], owner, repository, branch, commit)
      && (forall j :: 0 <= j < i ==> !MatchesBuild(rows[j], owner, repository, branch, commit))
      && r.value == BuildFromDatabase(rows[i]))
  {
    if rows == [] then None
    else if MatchesBuild(rows[0], owner, repository, branch, commit) then Some(BuildFromDatabase(rows[0]))
    else
      var r := FindBuild(rows[1..], owner, repository, branch, commit);
      assert forall i :: 1 <= i < |rows| ==> rows[i] == rows[1..][i - 1];
      assert (exists i :: 0 <= i < |rows[1..]| && MatchesBuild(rows[1..][i], owner, repository, branch, commit))
        ==> exists i :: 0 <= i < |rows| && MatchesBuild(rows[i], owner, repository, branch, commit);
      r
  }

  /** The build row `associate_try_build` inserts: the pull request's repository, the
      branch and commit, and the status `pending`. */
  datatype NewBuild = NewBuild(repository: string, branch: string, commitHash: string, status: string)

  function NewTryBuild(pr: BorsPullRequest, branch: string, commit: string): (r: NewBuild)
    ensures r.repository == pr.repository && r.branch == branch && r.commitHash == commit
    ensures IsDatabaseStatus(r.status) && StatusFromDatabase(r.status) == Pending
  {
    NewBuild(pr.repository, branch, commit, StatusToDatabase(Pending))
  }

  /** The update of the pull request row that links it to the inserted build. */
  function LinkTryBuild(pr: PullRequestRow, buildId: int): (r: PullRequestRow)
    ensures r.tryBuild == Some(buildId)
    ensures r.id == pr.id && r.repository == pr.repository && r.number == pr.number && r.createdAt == pr.createdAt
  {
    pr.(tryBuild := Some(buildId))
  }

  /** The pull request row `get_or_create_pull_request` inserts. */
  datatype NewPullRequest = NewPullRequest(repository: string, number: int)

  function NewPullRequestRow(name: string, number: int): (r: NewPullRequest)
    requires IsU64(number)
    ensures r.repository == name && r.number == U64AsI32(number)
  {
    NewPullRequest(name, U64AsI32(number))
  }

  /** A database error, and the report the client returns. */
  datatype DbErr = RecordNotInserted | OtherDbErr(description: string)
  datatype Report = FromDb(err: DbErr) | Message(text: string)

  /** The stored rows the lookup of `get_or_create_pull_request` reads: the `pull_request`
      and `build` tables, with their columns' invariants (an `i32` number, a status the
      codec knows). */
  datatype Tables = Tables(pullRequests: seq<PullRequestRow>, builds: seq<BuildRow>)

  predicate ValidTables(db: Tables) {
    (forall i :: 0 <= i < |db.pullRequests| ==> IsI32(db.pullRequests[i].number))
    && forall i :: 0 <= i < |db.builds| ==> IsDatabaseStatus(db.builds[i].status)
  }

  /** The lookup's filter: the repository and the number, compared as integers, where the
      number is the unconverted `u64`. */
  predicate MatchesPullRequest(row: PullRequestRow, name: string, number: int) {
    row.repository == name && row.number == number
  }

  /** The build a pull request's `try_build` refers to, as `find_also_related` joins it. */
  function RelatedBuild(builds: seq<BuildRow>, id: Option<int>): (r: Option<BuildRow>)
    ensures r.Some? ==> id.Some? && r.value in builds && r.value.id == id.value
    ensures r.None? && id.Some? ==> forall i :: 0 <= i < |builds| ==> builds[i].id != id.value
  {
    if id.None? || builds == [] then None
    else if builds[0].id == id.value then Some(builds[0])
    else RelatedBuild(builds[1..], id)
  }

  /** The lookup: the first pull request row the filter matches, with its related build. */
  function FindPullRequest(db: Tables, name: string, number: int): (r: Option<(PullRequestRow, Option<BuildRow>)>)
    ensures r.Some? <==> exists i :: 0 <= i < |db.pullRequests| && MatchesPullRequest(db.pullRequests[i], name, number)
    ensures r.Some? ==> exists i :: (0 <= i < |db.pullRequests|
      && MatchesPullRequest(db.pullRequests[i], name, number)
      && (forall j :: 0 <= j < i ==> !MatchesPullRequest(db.pullRequests[j], name, number))
      && r.value == (db.pullRequests[i], RelatedBuild(db.builds, db.pullRequests[i].tryBuild)))
    decreases |db.pullRequests|
  {
    if db.pullRequests == [] then None
    else if MatchesPullRequest(db.pullRequests[0], name, number) then
      Some((db.pullRequests[0], RelatedBuild(db.builds, db.pullRequests[0].tryBuild)))
    else
      var rest := db.(pullRequests := db.pullRequests[1..]);
      assert forall i :: 1 <= i < |db.pullRequests| ==> db.pullRequests[i] == rest.pullRequests[i - 1];
      FindPullRequest(rest, name, number)
  }

  /** `get_or_create_pull_request`, after its insert (with "do nothing" on conflict): an
      insert that inserted nothing is fine, any other insert error is returned; then the
      lookup's own error is returned, no matching row is the report "cannot execute query",
      and a matching row is converted. The lookup reads `db`, the tables after the insert,
      or fails with a database error. */
  function GetOrCreatePullRequest(
    inserted: Result<Unit, DbErr>,
    lookup: Result<Tables, DbErr>,
    name: string,
    prNumber: int
  ): (r: Result<BorsPullRequest, Report>)
    requires IsU64(prNumber)
    requires lookup.Ok? ==> ValidTables(lookup.value)
    ensures inserted.Err? && inserted.error != RecordNotInserted ==> r == Err(FromDb(inserted.error))
    ensures (inserted.Ok? || inserted.error == RecordNotInserted) ==>
      (lookup.Err? ==> r == Err(FromDb(lookup.error)))
      && (lookup.Ok? ==>
            (r.Ok? <==> exists i :: (0 <= i < |lookup.value.pullRequests|
                          && MatchesPullRequest(lookup.value.pullRequests[i], name, prNumber)))
            && (r.Err? ==> r.error == Message("cannot execute query"))
            && (r.Ok? ==> r.value.repository == name && r.value.number == prNumber)
            && (r.Ok? ==> exists i :: (0 <= i < |lookup.value.pullRequests|
                  && MatchesPullRequest(lookup.value.pullRequests[i], name, prNumber)
                  && (forall j :: 0 <= j < i ==> !MatchesPullRequest(lookup.value.pullRequests[j], name, prNumber))
                  && r.value == PrFromDatabase(lookup.value.pullRequests[i],
                                               RelatedBuild(lookup.value.builds, lookup.value.pullRequests[i].tryBuild)))))
  {
    if inserted.Err? && inserted.error != RecordNotInserted then Err(FromDb(inserted.error))
    else
      match lookup
      case Err(e) => Err(FromDb(e))
      case Ok(db) =>
        match FindPullRequest(db, name, prNumber)
        case None => Err(Message("cannot execute query"))
        case Some((pr, build)) =>
          Ok(PrFromDatabase(pr, build))
  }

  /** The row the insert stores is found by the lookup when its number is below 2^31: the
      pull request is returned with its own number, whether the insert stored it or found
      it already there. */
  lemma ExistingPullRequestIsFound(db: Tables, name: string, prNumber: int, inserted: Result<Unit, DbErr>)
    requires 0 <= prNumber < TWO_31 && ValidTables(db)
    requires inserted.Ok? || inserted.error == RecordNotInserted
    requires exists i :: (0 <= i < |db.pullRequests|
      && db.pullRequests[i].repository == NewPullRequestRow(name, prNumber).repository
      && db.pullRequests[i].number == NewPullRequestRow(name, prNumber).number)
    ensures GetOrCreatePullRequest(inserted, Ok(db), name, prNumber) == GetOrCreatePullRequest(Ok(Unit), Ok(db), name, prNumber)
    ensures var r := GetOrCreatePullRequest(inserted, Ok(db), name, prNumber);
      r.Ok? && r.value.repository == name && r.value.number == prNumber
  {
    NumberRoundTrip(prNumber);
  }

  /** A pull request numbered 2^31 or more is never found: it is stored as a negative `i32`,
      while the lookup compares the column with the unconverted number, so the call reports
      "cannot execute query" even right after storing the row. */
  lemma LargePullRequestNeverFound(db: Tables, name: string, prNumber: int, inserted: Result<Unit, DbErr>)
    requires TWO_31 <= prNumber < TWO_64 && ValidTables(db)
    requires inserted.Ok? || inserted.error == RecordNotInserted
    ensures GetOrCreatePullRequest(inserted, Ok(db), name, prNumber) == Err(Message("cannot execute query"))
  {
  }
}

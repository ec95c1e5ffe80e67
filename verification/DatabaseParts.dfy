/**
 A database snapshot too large for one capsule member is split into numbered parts, and joined again
 when the capsule is restored.
*/
module DatabaseParts {
  import opened Common
  import opened SignedMessages

  type Byte = b: int | 0 <= b < 256

  type Path = string

  datatype File = File(path: Path, data: seq<Byte>)

  const DB_PATH: Path := "data/kyidentity.db"
  const PART_PREFIX: Path := DB_PATH + ".part"

  // ---- names --------------------------------------------------------------------------------------------

  /** At least three digits. */
  function Padded(i: nat): string {
    if i < 10 then "00" + Decimal(i) else if i < 100 then "0" + Decimal(i) else Decimal(i)
  }

  function Part(i: nat): Path {
    PART_PREFIX + Padded(i)
  }

  predicate IsPart(path: Path) {
    PART_PREFIX <= path
  }

  lemma {:induction false} LeadingZero(s: string)
    ensures Value("0" + s) == Value(s)
  {
    var z := "0" + s;
    if s == "" {
      assert z[..0] == "" && z[0] == '0';
    } else {
      LeadingZero(s[..|s| - 1]);
      assert z[..|z| - 1] == "0" + s[..|s| - 1];
    }
  }

  lemma PaddedValue(i: nat)
    ensures Value(Padded(i)) == i
  {
    DecimalRoundTrip(i);
    LeadingZero(Decimal(i));
    LeadingZero("0" + Decimal(i));
    assert "00" + Decimal(i) == "0" + ("0" + Decimal(i));
  }

  lemma {:induction false} DecimalLeads(n: nat)
    ensures n > 0 ==> Decimal(n)[0] != '0'
    ensures 10 <= n ==> |Decimal(n)| >= 2
    ensures 100 <= n ==> |Decimal(n)| >= 3
  {
    if n >= 10 {
      DecimalLeads(n / 10);
    }
  }

  /** No two parts share a name, past a thousand of them too, and none has the database's own name. */
  lemma PartNames(i: nat, j: nat)
    ensures Part(i) == Part(j) ==> i == j
    ensures IsPart(Part(i)) && Part(i) != DB_PATH && !IsPart(DB_PATH)
  {
    if Part(i) == Part(j) {
      assert Padded(i) == Part(i)[|PART_PREFIX|..] && Padded(j) == Part(j)[|PART_PREFIX|..];
      PaddedValue(i);
      PaddedValue(j);
    }
  }

  lemma PaddedDigits(i: nat)
    ensures IsDigits(Padded(i)) && |Padded(i)| >= 3 && (|Padded(i)| > 3 ==> Padded(i)[0] != '0')
  {
    DecimalRoundTrip(i);
    DecimalLeads(i);
  }

  /** A part's name is the database's, ".part", and its number in decimal, filled up to three digits with zeros. */
  lemma PartSpelledOut(i: nat)
    ensures "data/kyidentity.db.part" <= Part(i)
    ensures var number := Part(i)[|"data/kyidentity.db.part"|..];
            IsDigits(number) && Value(number) == i && |number| >= 3 && (|number| > 3 ==> number[0] != '0')
  {
    PaddedValue(i);
    PaddedDigits(i);
    assert Part(i)[|"data/kyidentity.db.part"|..] == Padded(i);
  }

  // ---- splitting ------------------------------------------------------------------------------------------

  function Slices(db: seq<Byte>, limit: nat): seq<seq<Byte>>
    requires limit > 0
    decreases |db|
  {
    if db == [] then [] else if |db| <= limit then [db] else [db[..limit]] + Slices(db[limit..], limit)
  }

  function Concat(parts: seq<seq<Byte>>): seq<Byte> {
    if parts == [] then [] else parts[0] + Concat(parts[1..])
  }

  /** The slices are nonempty, within the limit, as few as possible, and together the snapshot. */
  lemma {:induction false} SlicesAreExact(db: seq<Byte>, limit: nat)
    requires limit > 0
    ensures var parts := Slices(db, limit);
      && Concat(parts) == db
      && (forall i :: 0 <= i < |parts| ==> 0 < |parts[i]| <= limit && (i < |parts| - 1 ==> |parts[i]| == limit))
      && |db| <= |parts| * limit && (db != [] ==> (|parts| - 1) * limit < |db|)
    decreases |db|
  {
    var parts := Slices(db, limit);
    if |db| > limit {
      var rest := Slices(db[limit..], limit);
      SlicesAreExact(db[limit..], limit);
      OneMore(|rest| - 1, limit);
      OneMore(|rest|, limit);
      assert parts[1..] == rest && parts[0] == db[..limit];
      assert forall i :: 0 < i < |parts| ==> parts[i] == rest[i - 1];
    } else if db != [] {
      assert parts[1..] == [];
    }
  }

  lemma OneMore(n: int, limit: nat)
    ensures (n + 1) * limit == n * limit + limit
  {
  }

  /** How the parts are named; any names that never coincide would do. */
  type Names = nat -> Path

  function Numbered(parts: seq<seq<Byte>>, part: Names): seq<File> {
    seq(|parts|, i requires 0 <= i < |parts| => File(part(i), parts[i]))
  }

  function Members(db: seq<Byte>, limit: nat): seq<File>
    requires limit > 0
  {
    if |db| <= limit then [File(DB_PATH, db)] else Numbered(Slices(db, limit), Part)
  }

  lemma {:induction false} SlicesFrom(db: seq<Byte>, limit: nat, done: seq<seq<Byte>>, left: seq<Byte>)
    requires limit > 0 && left != [] && done + Slices(left, limit) == Slices(db, limit)
    ensures var n := if |left| < limit then |left| else limit;
            done + [left[..n]] + Slices(left[n..], limit) == Slices(db, limit)
  {
    if |left| <= limit {
      assert left[..|left|] == left && left[|left|..] == [];
    }
  }

  method DbMembers(db: seq<Byte>, limit: nat) returns (out: seq<File>)
    requires limit > 0
    ensures out == Members(db, limit)
  {
    if |db| <= limit {
      return [File(DB_PATH, db)];
    }
    out := [];
    ghost var done := [];
    var left := db;
    var i := 0;
    while |left| > 0
      invariant i == |done| && out == Numbered(done, Part) && done + Slices(left, limit) == Slices(db, limit)
      decreases |left|
    {
      var n := if |left| < limit then |left| else limit;
      SlicesFrom(db, limit, done, left);
      out := out + [File(Part(i), left[..n])];
      done := done + [left[..n]];
      left := left[n..];
      i := i + 1;
    }
  }

  // ---- joining --------------------------------------------------------------------------------------------

  type Files = map<Path, seq<Byte>>

  datatype JoinError = DatabaseExists | NotConsecutive

  ghost predicate Distinct(part: Names) {
    forall i, j :: part(i) == part(j) ==> i == j
  }

  /** The parts present start with exactly n consecutive ones. */
  ghost predicate RunsTo(files: Files, part: Names, n: nat) {
    part(n) !in files && forall k: nat :: k < n ==> part(k) in files
  }

  function Joined(files: Files, part: Names, n: nat): seq<Byte>
    requires forall k: nat :: k < n ==> part(k) in files
  {
    if n == 0 then [] else Joined(files, part, n - 1) + files[part(n - 1)]
  }

  ghost predicate IsOneOf(path: Path, part: Names, n: nat) {
    exists k: nat :: k < n && path == part(k)
  }

  ghost function WithoutParts(files: Files, part: Names, n: nat): Files {
    map p | p in files && !IsOneOf(p, part, n) :: files[p]
  }

  ghost predicate LeftOver(files: Files, n: nat) {
    exists p :: p in WithoutParts(files, Part, n) && IsPart(p)
  }

  lemma PartsAreDistinct()
    ensures Distinct(Part)
  {
    forall i: nat, j: nat | Part(i) == Part(j) ensures i == j {
      PartNames(i, j);
    }
  }

  lemma TakeOne(files: Files, part: Names, i: nat)
    requires Distinct(part)
    ensures WithoutParts(files, part, i) - {part(i)} == WithoutParts(files, part, i + 1)
    ensures part(i) in WithoutParts(files, part, i) <==> part(i) in files
  {
    forall p | p in files ensures IsOneOf(p, part, i + 1) <==> IsOneOf(p, part, i) || p == part(i) {
      if IsOneOf(p, part, i) {
        var k: nat :| k < i && p == part(k);
        assert k < i + 1 && p == part(k);
      }
      assert p == part(i) ==> i < i + 1 && p == part(i);
    }
  }

  class Directory {
    var files: Files

    constructor (files: Files)
      ensures this.files == files
    {
      this.files := files;
    }

    /** Reads and removes the parts, one by one, until the next number is missing. */
    method TakeParts(part: Names) returns (out: seq<Byte>, ghost n: nat)
      requires Distinct(part)
      modifies this
      ensures RunsTo(old(files), part, n)
      ensures files == WithoutParts(old(files), part, n) && out == Joined(old(files), part, n)
    {
      ghost var before := files;
      out := [];
      var i := 0;
      assert files == WithoutParts(before, part, 0);
      while part(i) in files
        invariant forall k: nat :: k < i ==> part(k) in before
        invariant files == WithoutParts(before, part, i) && out == Joined(before, part, i)
        decreases |files|
      {
        TakeOne(before, part, i);
        assert (files - {part(i)}).Keys == files.Keys - {part(i)};
        out := out + files[part(i)];
        files := files - {part(i)};
        i := i + 1;
      }
      TakeOne(before, part, i);
      n := i;
    }

    /** True when it joined something. Parts left over after a gap are an error, though what was joined stays. */
    method JoinDatabaseParts() returns (r: Result<bool, JoinError>)
      modifies this
      ensures Part(0) !in old(files) ==> r == Ok(false) && files == old(files)
      ensures Part(0) in old(files) && DB_PATH in old(files) ==> r == Err(DatabaseExists) && files == old(files)
      ensures Part(0) in old(files) && DB_PATH !in old(files) ==>
                exists n :: RunsTo(old(files), Part, n) &&
                            files == WithoutParts(old(files), Part, n)[DB_PATH := Joined(old(files), Part, n)] &&
                            r == if LeftOver(old(files), n) then Err(NotConsecutive) else Ok(true)
    {
      if Part(0) !in files {
        return Ok(false);
      }
      if DB_PATH in files {
        return Err(DatabaseExists);
      }
      PartsAreDistinct();
      ghost var before := files;
      var out;
      ghost var n;
      out, n := TakeParts(Part);
      r := if exists p :: p in files && IsPart(p) then Err(NotConsecutive) else Ok(true);
      assert r == if LeftOver(before, n) then Err(NotConsecutive) else Ok(true);
      files := files[DB_PATH := out];
    }
  }

  // ---- split, then join -------------------------------------------------------------------------------------

  /** A capsule's members written into a directory. */
  function Opened(base: Files, members: seq<File>): Files {
    if members == [] then base
    else Opened(base, members[..|members| - 1])[members[|members| - 1].path := members[|members| - 1].data]
  }

  ghost predicate Clean(base: Files) {
    DB_PATH !in base && forall p :: p in base ==> !IsPart(p)
  }

  /** No part's name is taken, by the database or by anything in the directory. */
  ghost predicate Free(base: Files, part: Names) {
    DB_PATH !in base && Distinct(part) && forall i :: part(i) !in base && part(i) != DB_PATH
  }

  lemma CleanIsFree(base: Files)
    requires Clean(base)
    ensures Free(base, Part)
  {
    PartsAreDistinct();
    forall i: nat ensures Part(i) !in base && Part(i) != DB_PATH {
      PartNames(i, i);
    }
  }

  ghost predicate Holds(files: Files, part: Names, parts: seq<seq<Byte>>) {
    forall i :: 0 <= i < |parts| ==> part(i) in files && files[part(i)] == parts[i]
  }

  lemma {:induction false} OpenedParts(base: Files, parts: seq<seq<Byte>>, part: Names)
    requires Free(base, part)
    ensures var files := Opened(base, Numbered(parts, part));
      && DB_PATH !in files && Holds(files, part, parts)
      && (forall p :: p in files <==> p in base || IsOneOf(p, part, |parts|))
      && (forall p :: p in base ==> files[p] == base[p])
  {
    if parts != [] {
      var n := |parts| - 1;
      OpenedParts(base, parts[..n], part);
      assert Numbered(parts, part)[..n] == Numbered(parts[..n], part);
      forall p ensures IsOneOf(p, part, n + 1) <==> IsOneOf(p, part, n) || p == part(n) {
        assert p == part(n) ==> n < n + 1 && p == part(n);
      }
    }
  }

  lemma {:induction false} ConcatSnoc(parts: seq<seq<Byte>>, last: seq<Byte>)
    ensures Concat(parts + [last]) == Concat(parts) + last
  {
    if parts != [] {
      ConcatSnoc(parts[1..], last);
      assert (parts + [last])[1..] == parts[1..] + [last];
    } else {
      assert ([last])[1..] == [];
    }
  }

  lemma {:induction false} JoinedIsConcat(files: Files, parts: seq<seq<Byte>>, part: Names, n: nat)
    requires n <= |parts| && Holds(files, part, parts)
    ensures Joined(files, part, n) == Concat(parts[..n])
  {
    if n > 0 {
      JoinedIsConcat(files, parts, part, n - 1);
      ConcatSnoc(parts[..n - 1], parts[n - 1]);
      assert parts[..n] == parts[..n - 1] + [parts[n - 1]];
    }
  }

  /** Writing the parts out and taking them back leaves the directory as it was and yields their concatenation. */
  lemma PartsComeBack(base: Files, parts: seq<seq<Byte>>, part: Names, n: nat)
    requires Free(base, part)
    ensures var files := Opened(base, Numbered(parts, part));
      && DB_PATH !in files && RunsTo(files, part, |parts|)
      && (RunsTo(files, part, n) ==>
            n == |parts| && WithoutParts(files, part, n) == base && Joined(files, part, n) == Concat(parts))
  {
    var files := Opened(base, Numbered(parts, part));
    OpenedParts(base, parts, part);
    assert RunsTo(files, part, |parts|);
    if RunsTo(files, part, n) {
      JoinedIsConcat(files, parts, part, n);
      assert parts[..n] == parts;
    }
  }

  /**
   Restoring a capsule and joining gives back the directory with exactly the snapshot in it: the
   parts run from zero to their number, nothing is left over, and what joining writes is the snapshot.
  */
  lemma JoinUndoesSplit(base: Files, db: seq<Byte>, limit: nat, n: nat)
    requires limit > 0 && Clean(base)
    ensures var files := Opened(base, Members(db, limit));
      if |db| <= limit then Part(0) !in files && files == base[DB_PATH := db]
      else
        && RunsTo(files, Part, |Slices(db, limit)|) && |Slices(db, limit)| > 0 && DB_PATH !in files
        && (RunsTo(files, Part, n) ==>
              && WithoutParts(files, Part, n)[DB_PATH := Joined(files, Part, n)] == base[DB_PATH := db]
              && !LeftOver(files, n))
  {
    CleanIsFree(base);
    if |db| <= limit {
      PartNames(0, 0);
      assert Members(db, limit)[..0] == [];
    } else {
      SlicesAreExact(db, limit);
      PartsComeBack(base, Slices(db, limit), Part, n);
    }
  }

  /** Every file with the prefix is a numbered part, as in any capsule dbMembers packed, parts lost or not. */
  ghost predicate NumberedOnly(files: Files) {
    forall p :: p in files && IsPart(p) ==> exists k: nat :: p == Part(k)
  }

  /**
   A part beyond a gap makes the join fail; and where files with the prefix are numbered parts, only
   that does.
  */
  lemma GapMakesJoinFail(files: Files, n: nat)
    requires RunsTo(files, Part, n)
    ensures (exists k: nat :: k > n && Part(k) in files) ==> LeftOver(files, n)
    ensures NumberedOnly(files) ==> (LeftOver(files, n) <==> exists k: nat :: k > n && Part(k) in files)
  {
    if k: nat :| k > n && Part(k) in files {
      PartsAreDistinct();
      PartNames(k, k);
      assert !IsOneOf(Part(k), Part, n);
      assert Part(k) in WithoutParts(files, Part, n);
    }
    if NumberedOnly(files) && LeftOver(files, n) {
      var p :| p in WithoutParts(files, Part, n) && IsPart(p);
      var k: nat :| p == Part(k);
      assert k < n ==> IsOneOf(p, Part, n);
      assert k > n && Part(k) in files;
    }
  }
}

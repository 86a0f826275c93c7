// The compile-command recorder: given the build directory, the file being
// compiled and the compiler arguments, it reads the existing list of compile
// records, drops any stale record for the same file and directory, and
// appends the new one, unless an identical record is already there, in which
// case nothing is written at all. The records are read one by one inside a
// try block whose catch ignores every error: a null entry, whose fields cannot
// be read, ends the reading there, and whatever followed it is dropped.

module CompileRecorder {

  import opened Wrappers

  /** One record of compile_commands.json. */
  datatype CompileRecord = CompileRecord(file: string, directory: string, command: string)

  /**
   * One entry of the array read back:
   * - Rec: an object whose file, directory and command are strings;
   * - Partial: an object whose file and directory are strings but whose
   *   command is missing or not a string (the database's "arguments" form).
   *   It never equals a command line, but it still names a file and a
   *   directory, so it is dropped when it names the target;
   * - Null: null, whose fields cannot be read;
   * - Other: any other value (a number, a string, an object without a string
   *   file or directory). Its fields never equal the target's, so it is kept
   *   as it is.
   */
  datatype Entry = Rec(rec: CompileRecord) | Partial(file: string, directory: string) | Null | Other

  /**
   * Joins the compiler arguments with single spaces (Array.join(" ")); when
   * no argument holds a space, splitting the command at spaces gives the
   * arguments back.
   */
  function Join(args: seq<string>): (r: string)
    ensures |args| > 0 && (forall i :: 0 <= i < |args| ==> NoSpace(args[i])) ==> Split(r) == args
    decreases |args|
  {
    if |args| == 0 then ""
    else if |args| == 1 then
      if NoSpace(args[0]) then
        SplitWord(args[0], "", [""]);
        assert args[0] + "" == args[0];
        args[0]
      else
        args[0]
    else
      var tail := Join(args[1..]);
      if forall i :: 0 <= i < |args| ==> NoSpace(args[i]) then
        assert forall i :: 0 <= i < |args[1..]| ==> NoSpace(args[1..][i]) by {
          forall i | 0 <= i < |args[1..]|
            ensures NoSpace(args[1..][i])
          {
            assert args[1..][i] == args[i + 1];
          }
        }
        assert Split(" " + tail) == [""] + args[1..] by {
          assert (" " + tail)[1..] == tail;
        }
        SplitWord(args[0], " " + tail, [""] + args[1..]);
        assert args[0] + (" " + tail) == args[0] + " " + tail;
        assert args[0] + "" == args[0];
        assert [args[0]] + args[1..] == args;
        args[0] + " " + tail
      else
        args[0] + " " + tail
  }

  /** Splits a string at every space; the inverse of Join for space-free arguments. */
  function Split(s: string): (r: seq<string>)
    ensures |r| > 0
    decreases |s|
  {
    if |s| == 0 then [""]
    else if s[0] == ' ' then [""] + Split(s[1..])
    else
      var rest := Split(s[1..]);
      [[s[0]] + rest[0]] + rest[1..]
  }

  predicate NoSpace(a: string) {
    forall k :: 0 <= k < |a| ==> a[k] != ' '
  }

  lemma {:induction false} SplitWord(a: string, tail: string, restSplit: seq<string>)
    requires NoSpace(a)
    requires Split(tail) == restSplit
    ensures Split(a + tail) == [a + restSplit[0]] + restSplit[1..]
    decreases |a|
  {
    if |a| == 0 {
      assert a + tail == tail;
      assert a + restSplit[0] == restSplit[0];
      assert restSplit == [restSplit[0]] + restSplit[1..];
    } else {
      SplitWord(a[1..], tail, restSplit);
      assert (a + tail)[1..] == a[1..] + tail;
      assert [a[0]] + (a[1..] + restSplit[0]) == a + restSplit[0];
    }
  }

  predicate SameTarget(r: CompileRecord, file: string, directory: string) {
    r.file == file && r.directory == directory
  }

  /** An entry the recorder drops: an object for the same file and directory, with or without a string command. */
  predicate Targets(e: Entry, file: string, directory: string) {
    (e.Rec? && SameTarget(e.rec, file, directory))
    || (e.Partial? && e.file == file && e.directory == directory)
  }

  /** The position of the first null entry, or the length when there is none. */
  function FirstNull(db: seq<Entry>): (n: nat)
    ensures n <= |db|
    ensures forall i :: 0 <= i < n ==> db[i] != Null
    ensures n < |db| ==> db[n] == Null
    decreases |db|
  {
    if |db| == 0 || db[0] == Null then 0
    else
      var n := FirstNull(db[1..]);
      assert forall i :: 1 <= i < 1 + n ==> db[i] == db[1..][i - 1];
      1 + n
  }

  /** The entries the loop reaches before a null entry throws. */
  function Readable(db: seq<Entry>): seq<Entry>
  {
    db[..FirstNull(db)]
  }

  /** The entries of db other than records for (file, directory), in their original order. */
  function Kept(db: seq<Entry>, file: string, directory: string): (r: seq<Entry>)
    ensures |r| <= |db|
    decreases |db|
  {
    if |db| == 0 then []
    else if Targets(db[|db| - 1], file, directory) then Kept(db[..|db| - 1], file, directory)
    else Kept(db[..|db| - 1], file, directory) + [db[|db| - 1]]
  }

  lemma {:induction false} KeptAppend(a: seq<Entry>, b: seq<Entry>, file: string, directory: string)
    ensures Kept(a + b, file, directory) == Kept(a, file, directory) + Kept(b, file, directory)
    decreases |b|
  {
    if |b| == 0 {
      assert a + b == a;
    } else {
      var b' := b[..|b| - 1];
      assert (a + b)[..|a + b| - 1] == a + b';
      KeptAppend(a, b', file, directory);
    }
  }

  /** Kept removes exactly the records for the target and keeps all the other entries. */
  lemma {:induction false} KeptMembers(db: seq<Entry>, file: string, directory: string, e: Entry)
    ensures e in Kept(db, file, directory) <==> e in db && !Targets(e, file, directory)
    decreases |db|
  {
    if |db| > 0 {
      KeptMembers(db[..|db| - 1], file, directory, e);
      assert db == db[..|db| - 1] + [db[|db| - 1]];
    }
  }

  /** Kept is the identity on entries that hold no record for the target. */
  lemma {:induction false} KeptNoTarget(db: seq<Entry>, file: string, directory: string)
    requires forall i :: 0 <= i < |db| ==> !Targets(db[i], file, directory)
    ensures Kept(db, file, directory) == db
    decreases |db|
  {
    if |db| > 0 {
      KeptNoTarget(db[..|db| - 1], file, directory);
    }
  }

  /**
   * The whole update as a function of the arguments and the array read
   * (a missing or unparsable file reads as None).
   * None means "do not write"; Some(list) is the list written back.
   */
  function Updated(buildDirectory: string, file: string, args: seq<string>,
                   read: Option<seq<Entry>>): Option<seq<Entry>>
  {
    var db := if read.Some? then Readable(read.value) else [];
    var entry := Rec(CompileRecord(file, buildDirectory, Join(args)));
    if entry in db then None else Some(Kept(db, file, buildDirectory) + [entry])
  }

  /**
   * The recorder run: a loop over the incoming entries that sets
   * shouldWrite and builds the command list; a null entry throws, and the
   * empty catch ends the loop with what has been gathered so far.
   */
  method Record(buildDirectory: string, file: string, args: seq<string>,
                read: Option<seq<Entry>>)
    returns (shouldWrite: bool, commands: seq<Entry>)
    ensures var db := if read.Some? then Readable(read.value) else [];
            shouldWrite <==> Rec(CompileRecord(file, buildDirectory, Join(args))) !in db
    ensures shouldWrite ==> Updated(buildDirectory, file, args, read) == Some(commands)
    ensures !shouldWrite ==> Updated(buildDirectory, file, args, read) == None
  {
    var db := if read.Some? then read.value else [];
    var entry := Rec(CompileRecord(file, buildDirectory, Join(args)));
    commands := [];
    shouldWrite := true;
    var i := 0;
    while i < |db|
      invariant 0 <= i <= |db|
      invariant shouldWrite
      invariant forall j :: 0 <= j < i ==> db[j] != Null
      invariant entry !in db[..i]
      invariant commands == Kept(db[..i], file, buildDirectory)
    {
      var c := db[i];
      if c == Null {
        break;
      }
      if c == entry {
        shouldWrite := false;
        break;
      }
      assert db[..i + 1] == db[..i] + [c];
      KeptAppend(db[..i], [c], file, buildDirectory);
      if !Targets(c, file, buildDirectory) {
        commands := commands + [c];
      }
      i := i + 1;
    }
    ghost var readable := if read.Some? then Readable(read.value) else [];
    if shouldWrite {
      assert FirstNull(db) == i;
      assert readable == db[..i];
      commands := commands + [entry];
    } else {
      assert FirstNull(db) > i;
      assert readable[i] == entry;
    }
  }

  /** After a write, exactly one record exists for (file, directory), and it is the last. */
  lemma UniqueAfterWrite(buildDirectory: string, file: string, args: seq<string>,
                         read: Option<seq<Entry>>, written: seq<Entry>)
    requires Updated(buildDirectory, file, args, read) == Some(written)
    ensures |written| > 0 && written[|written| - 1] == Rec(CompileRecord(file, buildDirectory, Join(args)))
    ensures forall i :: 0 <= i < |written| - 1 ==> !Targets(written[i], file, buildDirectory)
  {
    var db := if read.Some? then Readable(read.value) else [];
    var kept := Kept(db, file, buildDirectory);
    assert written == kept + [Rec(CompileRecord(file, buildDirectory, Join(args)))];
    forall i | 0 <= i < |written| - 1
      ensures !Targets(written[i], file, buildDirectory)
    {
      assert written[i] == kept[i];
      KeptMembers(db, file, buildDirectory, kept[i]);
    }
  }

  /**
   * Entries other than records for the target survive a write exactly when
   * they came before the first null entry.
   */
  lemma OthersKept(buildDirectory: string, file: string, args: seq<string>,
                   read: Option<seq<Entry>>, written: seq<Entry>, e: Entry)
    requires Updated(buildDirectory, file, args, read) == Some(written)
    requires !Targets(e, file, buildDirectory)
    ensures e in written <==> read.Some? && e in Readable(read.value)
  {
    var db := if read.Some? then Readable(read.value) else [];
    KeptMembers(db, file, buildDirectory, e);
  }

  /** The list written back holds no null entry. */
  lemma {:induction false} KeptNoNull(db: seq<Entry>, file: string, directory: string)
    requires forall i :: 0 <= i < |db| ==> db[i] != Null
    ensures Null !in Kept(db, file, directory)
  {
    KeptMembers(db, file, directory, Null);
  }

  /** Running the recorder a second time with the same arguments writes nothing. */
  lemma Idempotent(buildDirectory: string, file: string, args: seq<string>,
                   read: Option<seq<Entry>>, written: seq<Entry>)
    requires Updated(buildDirectory, file, args, read) == Some(written)
    ensures Updated(buildDirectory, file, args, Some(written)) == None
  {
    var db := if read.Some? then Readable(read.value) else [];
    var entry := Rec(CompileRecord(file, buildDirectory, Join(args)));
    KeptNoNull(db, file, buildDirectory);
    assert written == Kept(db, file, buildDirectory) + [entry];
    forall i | 0 <= i < |written|
      ensures written[i] != Null
    {
      if i < |written| - 1 {
        assert written[i] in Kept(db, file, buildDirectory);
      }
    }
    assert Readable(written) == written;
    assert written[|written| - 1] == entry;
  }

  /** A missing or unparsable file behaves as an empty one: the new record is written alone. */
  lemma MissingDatabase(buildDirectory: string, file: string, args: seq<string>)
    ensures Updated(buildDirectory, file, args, None)
         == Some([Rec(CompileRecord(file, buildDirectory, Join(args)))])
  {
    var entry := Rec(CompileRecord(file, buildDirectory, Join(args)));
    assert entry !in [];
    assert Kept([], file, buildDirectory) + [entry] == [entry];
  }

  /** A null entry ends the reading: whatever follows it is neither matched nor kept. */
  lemma NullTruncates(buildDirectory: string, file: string, args: seq<string>,
                      before: seq<Entry>, after: seq<Entry>)
    requires forall i :: 0 <= i < |before| ==> before[i] != Null
    ensures Updated(buildDirectory, file, args, Some(before + [Null] + after))
         == Updated(buildDirectory, file, args, Some(before))
  {
    var db := before + [Null] + after;
    assert db[|before|] == Null;
    assert forall i :: 0 <= i < |before| ==> db[i] == before[i];
    assert Readable(db) == before;
    assert FirstNull(before) == |before|;
    assert Readable(before) == before;
  }

  /**
   * A stale entry for the target (a record with another command, or an
   * object without a string command) is replaced by the new record.
   */
  lemma {:induction false} Supersedes(buildDirectory: string, file: string, args: seq<string>,
                                      before: seq<Entry>, after: seq<Entry>, stale: Entry)
    requires Targets(stale, file, buildDirectory) && stale != Rec(CompileRecord(file, buildDirectory, Join(args)))
    requires forall i :: 0 <= i < |before| ==> !Targets(before[i], file, buildDirectory) && before[i] != Null
    requires forall i :: 0 <= i < |after| ==> !Targets(after[i], file, buildDirectory) && after[i] != Null
    ensures Updated(buildDirectory, file, args, Some(before + [stale] + after))
         == Some(before + after + [Rec(CompileRecord(file, buildDirectory, Join(args)))])
  {
    var entry := Rec(CompileRecord(file, buildDirectory, Join(args)));
    var db := before + [stale] + after;
    Around(before, stale, after, file, buildDirectory);
    NoNullReadable(db);
    assert entry !in db;
    KeptAppend(before + [stale], after, file, buildDirectory);
    KeptAppend(before, [stale], file, buildDirectory);
    KeptNoTarget(before, file, buildDirectory);
    KeptNoTarget(after, file, buildDirectory);
    assert Kept([stale], file, buildDirectory) == [] by {
      assert [stale][..0] == [];
    }
  }

  /**
   * An entry in the database's "arguments" form for the target is dropped:
   * the database [that entry] is rewritten as the new record alone.
   */
  lemma ArgumentsFormDropped(buildDirectory: string, file: string, args: seq<string>)
    ensures Updated(buildDirectory, file, args, Some([Partial(file, buildDirectory)]))
         == Some([Rec(CompileRecord(file, buildDirectory, Join(args)))])
  {
    var db := [Partial(file, buildDirectory)];
    assert FirstNull(db) == 1 by {
      assert db[1..] == [];
    }
    assert Readable(db) == db;
    assert Rec(CompileRecord(file, buildDirectory, Join(args))) !in db;
    assert Kept(db, file, buildDirectory) == [] by {
      assert db[..0] == [];
    }
    assert [] + [Rec(CompileRecord(file, buildDirectory, Join(args)))] == [Rec(CompileRecord(file, buildDirectory, Join(args)))];
  }

  /** Entries of before and after are neither null nor for the target; the one between them is the stale record. */
  lemma Around(before: seq<Entry>, stale: Entry, after: seq<Entry>, file: string, directory: string)
    requires forall i :: 0 <= i < |before| ==> !Targets(before[i], file, directory) && before[i] != Null
    requires forall i :: 0 <= i < |after| ==> !Targets(after[i], file, directory) && after[i] != Null
    requires stale != Null
    ensures forall e :: e in before + [stale] + after ==> e != Null && (e == stale || !Targets(e, file, directory))
  {
    var db := before + [stale] + after;
    forall k | 0 <= k < |db|
      ensures db[k] != Null && (db[k] == stale || !Targets(db[k], file, directory))
    {
      if k < |before| {
        assert db[k] == before[k];
      } else if k > |before| {
        assert db[k] == after[k - |before| - 1];
      }
    }
  }

  /** With no null entry, the loop reads the whole array. */
  lemma NoNullReadable(db: seq<Entry>)
    requires Null !in db
    ensures Readable(db) == db
  {
    forall i | 0 <= i < |db|
      ensures db[i] != Null
    {
      assert db[i] in db;
    }
  }
}

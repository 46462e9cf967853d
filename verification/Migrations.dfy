/** The migration runner: ordered, once-only and resumable. */
module Migrations {
  import opened Types

  // ----- file names -----

  /** The byte order in which file names are sorted. */
  predicate Before(a: string, b: string) {
    if b == "" then false
    else if a == "" then true
    else if a[0] != b[0] then a[0] < b[0]
    else Before(a[1..], b[1..])
  }

  /** The order: at the first place where the names differ, the lower character comes first, and a name comes
      before its continuations. */
  lemma {:induction false} BeforeIsByFirstDifference(a: string, b: string)
    ensures Before(a, b) <==>
              exists k :: 0 <= k <= |a| && k < |b| && a[..k] == b[..k] && (k == |a| || a[k] < b[k])
    decreases |a|
  {
    if a != "" && b != "" && a[0] == b[0] {
      BeforeIsByFirstDifference(a[1..], b[1..]);
      if Before(a, b) {
        var k :| 0 <= k <= |a[1..]| && k < |b[1..]| && a[1..][..k] == b[1..][..k]
                 && (k == |a[1..]| || a[1..][k] < b[1..][k]);
        assert a[..k + 1] == [a[0]] + a[1..][..k] && b[..k + 1] == [b[0]] + b[1..][..k];
        assert 0 <= k + 1 <= |a| && k + 1 < |b|;
      }
      if k :| 0 <= k <= |a| && k < |b| && a[..k] == b[..k] && (k == |a| || a[k] < b[k]) {
        assert k > 0;
        assert a[1..][..k - 1] == a[..k][1..] && b[1..][..k - 1] == b[..k][1..];
      }
    } else if a != "" && b != "" {
      if a[0] < b[0] {
        assert a[..0] == b[..0];
      }
      forall k | 0 < k <= |a| && k < |b| ensures a[..k] != b[..k] {
        assert a[..k][0] == a[0] && b[..k][0] == b[0];
      }
    } else if b != "" {
      assert a[..0] == b[..0];
    }
  }

  lemma {:induction false} BeforeIsTotal(a: string, b: string)
    ensures a == b || Before(a, b) || Before(b, a)
    ensures !(Before(a, b) && Before(b, a)) && !Before(a, a)
    decreases |a|
  {
    if a != "" && b != "" {
      BeforeIsTotal(a[1..], b[1..]);
      assert a[0] == b[0] && a[1..] == b[1..] ==> [a[0]] + a[1..] == [b[0]] + b[1..];
      assert a == [a[0]] + a[1..] && b == [b[0]] + b[1..];
    }
    if a != "" {
      BeforeIsTotal(a[1..], a[1..]);
    }
  }

  lemma {:induction false} BeforeIsTransitive(a: string, b: string, c: string)
    requires Before(a, b) && Before(b, c)
    ensures Before(a, c)
    decreases |a|
  {
    if a != "" && a[0] == b[0] && b[0] == c[0] {
      BeforeIsTransitive(a[1..], b[1..], c[1..]);
    }
  }

  predicate IsDigit(c: char) {
    '0' <= c <= '9'
  }

  predicate IsWordChar(c: char) {
    'a' <= c <= 'z' || IsDigit(c) || c == '_'
  }

  function LeadingDigits(s: string): (n: nat)
    ensures n <= |s|
  {
    if s == "" || !IsDigit(s[0]) then 0 else 1 + LeadingDigits(s[1..])
  }

  predicate IsSql(name: string) {
    |name| >= 4 && name[|name| - 4..] == ".sql"
  }

  /** Three or more digits, an underscore, one or more of [a-z0-9_], and ".sql". */
  predicate WellNamed(name: string) {
    && IsSql(name)
    && var stem := name[..|name| - 4];
       var d := LeadingDigits(stem);
       && 3 <= d < |stem| - 1
       && stem[d] == '_'
       && forall i | d < i < |stem| :: IsWordChar(stem[i])
  }

  predicate Spells(name: string, digits: string, rest: string) {
    && name == digits + "_" + rest + ".sql" && |digits| >= 3 && |rest| >= 1
    && (forall i | 0 <= i < |digits| :: '0' <= digits[i] <= '9')
    && (forall i | 0 <= i < |rest| :: 'a' <= rest[i] <= 'z' || '0' <= rest[i] <= '9' || rest[i] == '_')
  }

  /** The names that the runner accepts are exactly these: at least three digits, an underscore, at least one
      small letter, digit or underscore, and ".sql". */
  lemma WellNamedExactly(name: string)
    ensures WellNamed(name) <==> exists digits: string, rest: string :: Spells(name, digits, rest)
  {
    if WellNamed(name) {
      WellNamedSpells(name);
    }
    if digits: string, rest: string :| Spells(name, digits, rest) {
      SpelledIsWellNamed(name, digits, rest);
    }
  }

  lemma WellNamedSpells(name: string)
    requires WellNamed(name)
    ensures exists digits: string, rest: string :: Spells(name, digits, rest)
  {
    var stem := name[..|name| - 4];
    var d := LeadingDigits(stem);
    DigitsLead(stem);
    hide LeadingDigits;
    var digits, rest := stem[..d], stem[d + 1..];
    forall i | 0 <= i < |rest| ensures IsWordChar(rest[i]) {
      assert rest[i] == stem[d + 1 + i];
    }
    assert stem == digits + "_" + rest;
    assert name == stem + ".sql";
    assert Spells(name, digits, rest);
  }

  lemma SpelledIsWellNamed(name: string, digits: string, rest: string)
    requires Spells(name, digits, rest)
    ensures WellNamed(name)
  {
    var stem := digits + "_" + rest;
    assert name == stem + ".sql";
    assert name[..|name| - 4] == stem && name[|name| - 4..] == ".sql";
    DigitsEnd(digits, "_" + rest);
    assert digits + ("_" + rest) == stem;
    hide LeadingDigits;
    forall i | |digits| < i < |stem| ensures IsWordChar(stem[i]) {
      assert stem[i] == rest[i - |digits| - 1];
    }
  }

  lemma {:induction false} DigitsLead(s: string)
    ensures forall i | 0 <= i < LeadingDigits(s) :: '0' <= s[i] <= '9'
  {
    if s != "" && IsDigit(s[0]) {
      DigitsLead(s[1..]);
      assert forall i | 0 < i < |s| :: s[i] == s[1..][i - 1];
    }
  }

  lemma {:induction false} DigitsEnd(digits: string, rest: string)
    requires (forall i | 0 <= i < |digits| :: IsDigit(digits[i])) && (rest == "" || !IsDigit(rest[0]))
    ensures LeadingDigits(digits + rest) == |digits|
  {
    if digits == "" {
      assert digits + rest == rest;
    } else {
      assert (digits + rest)[1..] == digits[1..] + rest;
      DigitsEnd(digits[1..], rest);
    }
  }

  // ----- what a run does -----

  datatype Failure =
    | BadName(name: string)
    | BodyFailed(name: string)
    | CallFailed(name: string) // a call to the database or the file system failed

  /** The calls that the loop makes for a file, beside executing its body. */
  datatype Call = Check | ReadFile | Begin | Track | Commit

  /** Which call fails, and for which file of the listing. */
  datatype Trouble = NoTrouble | Trouble(file: nat, call: Call)

  /** The database under migration: its contents, the rows of schema_migrations, and the names whose bodies
      have been committed, in order; the last is not stored. */
  datatype Schema<D> = Schema(content: D, applied: set<string>, trace: seq<string>)

  datatype Run<D> = Run(schema: Schema<D>, failure: Option<Failure>)

  /** The loop over the files: each body and its tracking row are committed together or not at all. */
  function Migrate<D>(
    files: seq<string>, dir: map<string, string>, exec: (D, string) -> Option<D>, s: Schema<D>): (r: Run<D>)
    requires forall f | f in files :: f in dir
    decreases |files|
  {
    if files == [] then Run(s, None)
    else if !WellNamed(files[0]) then Run(s, Option.Some(BadName(files[0])))
    else if files[0] in s.applied then Migrate(files[1..], dir, exec, s)
    else
      match exec(s.content, dir[files[0]])
      case None => Run(s, Option.Some(BodyFailed(files[0])))
      case Some(content) =>
        Migrate(files[1..], dir, exec, Schema(content, s.applied + {files[0]}, s.trace + [files[0]]))
  }

  lemma {:induction false} MigrateOnlyAdds<D>(
    files: seq<string>, dir: map<string, string>, exec: (D, string) -> Option<D>, s: Schema<D>)
    requires forall f | f in files :: f in dir
    ensures s.applied <= Migrate(files, dir, exec, s).schema.applied
    ensures Migrate(files, dir, exec, s).failure == None ==>
              forall f | f in files :: WellNamed(f) && f in Migrate(files, dir, exec, s).schema.applied
    decreases |files|
  {
    if files != [] && WellNamed(files[0]) {
      if files[0] in s.applied {
        MigrateOnlyAdds(files[1..], dir, exec, s);
      } else if exec(s.content, dir[files[0]]).Some? {
        var content := exec(s.content, dir[files[0]]).value;
        MigrateOnlyAdds(
          files[1..], dir, exec, Schema(content, s.applied + {files[0]}, s.trace + [files[0]]));
      }
    }
  }

  /** Stopping after any number of files and running again over the same directory gives what one
      uninterrupted run gives, failures included. */
  lemma {:induction false} ResumeEqualsOneRun<D>(
    files: seq<string>, k: nat, dir: map<string, string>, exec: (D, string) -> Option<D>, s: Schema<D>)
    requires (forall f | f in files :: f in dir) && k <= |files|
    ensures Migrate(files, dir, exec, Migrate(files[..k], dir, exec, s).schema) == Migrate(files, dir, exec, s)
    decreases |files|
  {
    if k > 0 && WellNamed(files[0]) {
      assert files[..k][1..] == files[1..][..k - 1];
      if files[0] in s.applied {
        MigrateOnlyAdds(files[1..][..k - 1], dir, exec, s);
        ResumeEqualsOneRun(files[1..], k - 1, dir, exec, s);
      } else if exec(s.content, dir[files[0]]).Some? {
        var content := exec(s.content, dir[files[0]]).value;
        var next := Schema(content, s.applied + {files[0]}, s.trace + [files[0]]);
        MigrateOnlyAdds(files[1..][..k - 1], dir, exec, next);
        ResumeEqualsOneRun(files[1..], k - 1, dir, exec, next);
      }
    }
  }

  /** A run over two listings is a run over the first and, if it succeeds, over the second. */
  lemma {:induction false} MigrateInTwo<D>(
    a: seq<string>, b: seq<string>, dir: map<string, string>, exec: (D, string) -> Option<D>, s: Schema<D>)
    requires forall f | f in a + b :: f in dir
    ensures var first := Migrate(a, dir, exec, s);
            Migrate(a + b, dir, exec, s)
            == if first.failure == None then Migrate(b, dir, exec, first.schema) else first
    decreases |a|
  {
    if a == [] {
      assert a + b == b;
    } else {
      assert (a + b)[0] == a[0] && (a + b)[1..] == a[1..] + b;
      if WellNamed(a[0]) {
        if a[0] in s.applied {
          MigrateInTwo(a[1..], b, dir, exec, s);
        } else if exec(s.content, dir[a[0]]).Some? {
          var content := exec(s.content, dir[a[0]]).value;
          MigrateInTwo(a[1..], b, dir, exec, Schema(content, s.applied + {a[0]}, s.trace + [a[0]]));
        }
      }
    }
  }

  /** Whether the run makes that call for the file, given the database before it. */
  predicate Makes<D>(call: Call, file: string, dir: map<string, string>, exec: (D, string) -> Option<D>, s: Schema<D>)
    requires file in dir
  {
    call == Check
    || (file !in s.applied && (call in {ReadFile, Begin} || exec(s.content, dir[file]).Some?))
  }

  /** Whether the trouble strikes: the run gets to the file and makes the call. */
  predicate IsStruck<D>(
    files: seq<string>, dir: map<string, string>, exec: (D, string) -> Option<D>, s: Schema<D>, t: Trouble)
    requires forall f | f in files :: f in dir
  {
    && t.Trouble? && t.file < |files|
    && var before := Migrate(files[..t.file], dir, exec, s);
       before.failure == None && WellNamed(files[t.file]) && Makes(t.call, files[t.file], dir, exec, before.schema)
  }

  /** A run in which a call fails commits what came before and nothing of the file. */
  function TroubledMigrate<D>(
    files: seq<string>, dir: map<string, string>, exec: (D, string) -> Option<D>, s: Schema<D>, t: Trouble): Run<D>
    requires forall f | f in files :: f in dir
  {
    if IsStruck(files, dir, exec, s, t)
    then Run(Migrate(files[..t.file], dir, exec, s).schema, Option.Some(CallFailed(files[t.file])))
    else Migrate(files, dir, exec, s)
  }

  /** A run that fails among the first n files is over, and trouble with a later file does not strike. */
  lemma FailureStops<D>(
    files: seq<string>, n: nat, dir: map<string, string>, exec: (D, string) -> Option<D>, s: Schema<D>, t: Trouble)
    requires (forall f | f in files :: f in dir) && n <= |files|
    requires Migrate(files[..n], dir, exec, s).failure != None
    ensures Migrate(files, dir, exec, s) == Migrate(files[..n], dir, exec, s)
    ensures t.Trouble? && t.file >= n ==> !IsStruck(files, dir, exec, s, t)
  {
    assert files == files[..n] + files[n..];
    MigrateInTwo(files[..n], files[n..], dir, exec, s);
    if t.Trouble? && n <= t.file < |files| {
      assert files[..t.file] == files[..n] + files[n..t.file];
      MigrateInTwo(files[..n], files[n..t.file], dir, exec, s);
    }
  }

  /** After a run that stopped or that a failing call broke off, the next run ends as if it had been the only
      one. */
  lemma TroubleDoesNotMatter<D>(
    files: seq<string>, stop: nat, dir: map<string, string>, exec: (D, string) -> Option<D>, s: Schema<D>, t: Trouble)
    requires (forall f | f in files :: f in dir) && stop <= |files|
    ensures Migrate(files, dir, exec, TroubledMigrate(files[..stop], dir, exec, s, t).schema)
            == Migrate(files, dir, exec, s)
  {
    if IsStruck(files[..stop], dir, exec, s, t) {
      assert files[..stop][..t.file] == files[..t.file];
      ResumeEqualsOneRun(files, t.file, dir, exec, s);
    } else {
      ResumeEqualsOneRun(files, stop, dir, exec, s);
    }
  }

  /** How a run is broken off: the process stops after this many files, or a call fails before that. */
  datatype Break = Break(stop: nat, trouble: Trouble)

  /** Any number of runs, each broken off in its own way. */
  function Broken<D>(
    files: seq<string>, breaks: seq<Break>, dir: map<string, string>, exec: (D, string) -> Option<D>, s: Schema<D>)
    : Schema<D>
    requires (forall f | f in files :: f in dir) && forall i | 0 <= i < |breaks| :: breaks[i].stop <= |files|
    decreases |breaks|
  {
    if breaks == [] then s
    else
      var first := TroubledMigrate(files[..breaks[0].stop], dir, exec, s, breaks[0].trouble).schema;
      Broken(files, breaks[1..], dir, exec, first)
  }

  /** However often the runner stops or is broken off, the next full run ends as if it had been the only one. */
  lemma {:induction false} StopsDoNotMatter<D>(
    files: seq<string>, breaks: seq<Break>, dir: map<string, string>, exec: (D, string) -> Option<D>, s: Schema<D>)
    requires (forall f | f in files :: f in dir) && forall i | 0 <= i < |breaks| :: breaks[i].stop <= |files|
    ensures Migrate(files, dir, exec, Broken(files, breaks, dir, exec, s)) == Migrate(files, dir, exec, s)
    decreases |breaks|
  {
    if breaks != [] {
      TroubleDoesNotMatter(files, breaks[0].stop, dir, exec, s, breaks[0].trouble);
      var first := TroubledMigrate(files[..breaks[0].stop], dir, exec, s, breaks[0].trouble).schema;
      StopsDoNotMatter(files, breaks[1..], dir, exec, first);
    }
  }

  /** A run after a successful run changes nothing, and succeeds. */
  lemma SecondRunChangesNothing<D>(
    files: seq<string>, dir: map<string, string>, exec: (D, string) -> Option<D>, s: Schema<D>)
    requires forall f | f in files :: f in dir
    requires Migrate(files, dir, exec, s).failure == None
    ensures var first := Migrate(files, dir, exec, s).schema;
            Migrate(files, dir, exec, first) == Run(first, None)
  {
    assert files[..|files|] == files;
    ResumeEqualsOneRun(files, |files|, dir, exec, s);
  }

  predicate Ascending(files: seq<string>) {
    forall i, j | 0 <= i < j < |files| :: Before(files[i], files[j])
  }

  /** The files that a run still has to apply, in the order of the listing. */
  function Fresh(files: seq<string>, applied: set<string>): seq<string> {
    if files == [] then []
    else (if files[0] in applied then [] else [files[0]]) + Fresh(files[1..], applied)
  }

  /** The contents after executing the bodies of the files one after the other. */
  function Executed<D>(
    content: D, files: seq<string>, dir: map<string, string>, exec: (D, string) -> Option<D>): Option<D>
    decreases |files|
  {
    if files == [] then Option.Some(content)
    else if files[0] !in dir then None
    else
      match exec(content, dir[files[0]])
      case None => None
      case Some(next) => Executed(next, files[1..], dir, exec)
  }

  lemma NothingExecuted<D>(content: D, dir: map<string, string>, exec: (D, string) -> Option<D>)
    ensures Executed(content, [], dir, exec) == Option.Some(content)
  {
  }

  lemma ExecutedFirst<D>(
    content: D, file: string, more: seq<string>, dir: map<string, string>, exec: (D, string) -> Option<D>)
    requires file in dir && exec(content, dir[file]).Some?
    ensures Executed(content, [file] + more, dir, exec)
            == Executed(exec(content, dir[file]).value, more, dir, exec)
  {
    assert ([file] + more)[1..] == more;
  }

  /** A run commits the bodies it still has to apply, each once, in ascending name order, and stops before
      the first that fails; a successful run commits all of them. The contents are those after executing the
      committed bodies one after the other. */
  lemma {:induction false} BodiesApplyOnceInOrder<D>(
    files: seq<string>, dir: map<string, string>, exec: (D, string) -> Option<D>, s: Schema<D>)
    returns (added: seq<string>)
    requires (forall f | f in files :: f in dir) && Ascending(files)
    ensures var r := Migrate(files, dir, exec, s);
            && r.schema.trace == s.trace + added
            && r.schema.applied == s.applied + (set f | f in added)
            && Executed(s.content, added, dir, exec) == Option.Some(r.schema.content)
            && added <= Fresh(files, s.applied)
            && (r.failure == None ==> added == Fresh(files, s.applied))
    decreases |files|
  {
    hide WellNamed, Before, Executed;
    NothingExecuted(s.content, dir, exec);
    if files == [] || !WellNamed(files[0]) {
      added := [];
    } else if files[0] in s.applied {
      added := BodiesApplyOnceInOrder(files[1..], dir, exec, s);
    } else if exec(s.content, dir[files[0]]) == None {
      added := [];
    } else {
      var content := exec(s.content, dir[files[0]]).value;
      var next := Schema(content, s.applied + {files[0]}, s.trace + [files[0]]);
      var more := BodiesApplyOnceInOrder(files[1..], dir, exec, next);
      added := [files[0]] + more;
      FreshWithout(files[1..], s.applied, files[0]);
      assert Migrate(files, dir, exec, s) == Migrate(files[1..], dir, exec, next);
      hide Migrate, Ascending;
      assert Fresh(files, s.applied) == [files[0]] + Fresh(files[1..], next.applied);
      hide Fresh;
      ExecutedFirst(s.content, files[0], more, dir, exec);
      assert next.trace + more == s.trace + added;
      assert (set f | f in added) == {files[0]} + (set f | f in more);
    }
  }

  /** A name that does not occur in the listing does not change what is fresh. */
  lemma {:induction false} FreshWithout(files: seq<string>, applied: set<string>, name: string)
    requires forall i | 0 <= i < |files| :: Before(name, files[i])
    ensures Fresh(files, applied + {name}) == Fresh(files, applied)
  {
    if files != [] {
      BeforeIsTotal(name, files[0]);
      FreshWithout(files[1..], applied, name);
    }
  }

  // ----- the runner -----

  /** The database that the runner changes in place. */
  class Migrator<D> {
    var content: D
    var applied: set<string>
    ghost var trace: seq<string>

    constructor (content: D)
      ensures this.content == content && applied == {} && trace == []
    {
      this.content, this.applied, this.trace := content, {}, [];
    }

    ghost function View(): Schema<D>
      reads this
    {
      Schema(content, applied, trace)
    }

    /** Runs over the sorted listing. `stopAfter` is the number of files after which the process stops, if
        it does, and `trouble` the call that fails, if one does; a transaction that fails is rolled back. */
    method RunMigrations(
      files: seq<string>, dir: map<string, string>, exec: (D, string) -> Option<D>,
      stopAfter: nat, trouble: Trouble)
      returns (failure: Option<Failure>)
      requires forall f | f in files :: f in dir
      modifies this
      ensures var done := if stopAfter < |files| then stopAfter else |files|;
              Run(View(), failure) == TroubledMigrate(files[..done], dir, exec, old(View()), trouble)
    {
      var done := if stopAfter < |files| then stopAfter else |files|;
      var i := 0;
      ghost var start := View();
      ghost var all := files[..done];
      while i < done
        invariant 0 <= i <= done
        invariant Migrate(all[..i], dir, exec, start) == Run(View(), None)
        invariant trouble.Trouble? && trouble.file < i ==> !IsStruck(all, dir, exec, start, trouble)
      {
        assert all[..i + 1] == all[..i] + [files[i]];
        MigrateInTwo(all[..i], [files[i]], dir, exec, start);
        failure := ApplyFile(files[i], dir, exec, i, trouble);
        if failure != None {
          if Migrate(all[..i + 1], dir, exec, start).failure != None {
            FailureStops(all, i + 1, dir, exec, start, trouble);
          }
          return;
        }
        i := i + 1;
      }
      assert all[..i] == all;
      return None;
    }

    /** One turn of the loop. */
    method ApplyFile(
      file: string, dir: map<string, string>, exec: (D, string) -> Option<D>, i: nat, trouble: Trouble)
      returns (failure: Option<Failure>)
      requires file in dir
      modifies this
      ensures var struck := trouble.Trouble? && trouble.file == i && WellNamed(file)
                            && Makes(trouble.call, file, dir, exec, old(View()));
              Run(View(), failure)
              == if struck then Run(old(View()), Option.Some(CallFailed(file)))
                 else Migrate([file], dir, exec, old(View()))
    {
      assert [file][1..] == [];
      if !WellNamed(file) {
        return Option.Some(BadName(file));
      }
      if trouble == Trouble(i, Check) {
        return Option.Some(CallFailed(file));
      }
      if file in applied {
        return None;
      }
      if trouble == Trouble(i, ReadFile) || trouble == Trouble(i, Begin) {
        return Option.Some(CallFailed(file));
      }
      var saved := content;
      match exec(content, dir[file]) {
        case None =>
          return Option.Some(BodyFailed(file));
        case Some(next) =>
          content := next;
      }
      if trouble == Trouble(i, Track) || trouble == Trouble(i, Commit) {
        content := saved;
        return Option.Some(CallFailed(file));
      }
      applied, trace := applied + {file}, trace + [file];
      return None;
    }
  }

  /** Sorts the .sql names of a directory. */
  method SortedListing(names: set<string>) returns (files: seq<string>)
    ensures Ascending(files)
    ensures (set f | f in files) == (set n | n in names && IsSql(n))
  {
    var rest := set n | n in names && IsSql(n);
    files := [];
    while rest != {}
      invariant Ascending(files)
      invariant forall f, n | f in files && n in rest :: Before(f, n)
      invariant (set f | f in files) + rest == (set n | n in names && IsSql(n))
      decreases rest
    {
      var least := Least(rest);
      files := files + [least];
      rest := rest - {least};
    }
  }

  method Least(names: set<string>) returns (least: string)
    requires names != {}
    ensures least in names && forall n | n in names && n != least :: Before(least, n)
  {
    least :| least in names;
    var rest := names - {least};
    while rest != {}
      invariant rest <= names && least in names
      invariant forall n | n in names - rest && n != least :: Before(least, n)
      decreases rest
    {
      var n :| n in rest;
      BeforeIsTotal(least, n);
      if Before(n, least) {
        forall m | m in names - rest && m != n ensures Before(n, m) {
          if m != least {
            BeforeIsTransitive(n, least, m);
          }
        }
        least := n;
      }
      rest := rest - {n};
    }
  }
}

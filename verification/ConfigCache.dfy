/**
 The configuration cache: the controller for the configuration object keeps a compiled namespace
 pattern in memory and a copy of the configuration in a file. The two are updated separately, so
 they can disagree; the contracts say exactly what each of them is after any history.
 */
module ConfigCache {
  import opened Types
  import opened Validation

  /** One `Get` of the configuration object. `Unavailable` is any error but not-found, on which the accessor panics. */
  datatype Fetch = Found(cfg: Config) | NotFound | Unavailable

  const DEFAULT_CONFIG := Config(
    ["edit"], "Approved", "21", "IAM", "Access Request", "41",
    RequiredFields(FieldSettings("date", "customfield_10117"),
                   FieldSettings("date", "customfield_10118"),
                   FieldSettings("date", "customfield_10119")),
    map["Approver" := FieldSettings("user", "customfield_10114"),
        "ProductOwner" := FieldSettings("user", "customfield_10115"),
        "Justification" := FieldSettings("text", "customfield_10116")],
    ["default-config"], "dev-test", "minikube", "config: default", ".*", false)

  /** The accessors `SaveConfigToFile` calls, each of which fetches the object again. */
  const ACCESSORS := 13

  /** The position of the accessor for the pattern. */
  const PATTERN_ACCESSOR := 11

  predicate Available(f: Fetch) {
    !f.Unavailable?
  }

  predicate AllAvailable(fetches: seq<Fetch>) {
    forall f | f in fetches :: Available(f)
  }

  function Retrieved(f: Fetch): Config
    requires Available(f)
  {
    if f.Found? then f.cfg else DEFAULT_CONFIG
  }

  /** The saved configuration takes each field from a fetch of its own. */
  function Assembled(fetches: seq<Fetch>): Config
    requires |fetches| == ACCESSORS && AllAvailable(fetches)
  {
    Config(
      Retrieved(fetches[0]).allowedClusterRoles,
      Retrieved(fetches[1]).approvedStatus,
      Retrieved(fetches[2]).rejectedTransition,
      Retrieved(fetches[3]).jiraProject,
      Retrieved(fetches[4]).jiraIssueType,
      Retrieved(fetches[5]).completedTransition,
      Retrieved(fetches[7]).requiredFields,
      Retrieved(fetches[6]).customFields,
      Retrieved(fetches[9]).labels,
      Retrieved(fetches[8]).environment,
      Retrieved(fetches[8]).cluster,
      Retrieved(fetches[10]).additionalCommentText,
      Retrieved(fetches[PATTERN_ACCESSOR]).namespaceRegex,
      Retrieved(fetches[12]).selfApprovalEnabled)
  }

  predicate Steady(fetches: seq<Fetch>, f: Fetch) {
    forall i | 0 <= i < |fetches| :: fetches[i] == f
  }

  /** If the object does not change between the fetches, the assembly is the object, or the default if absent. */
  lemma SteadyAssembly(fetches: seq<Fetch>, f: Fetch)
    requires |fetches| == ACCESSORS && Available(f) && Steady(fetches, f)
    ensures AllAvailable(fetches)
    ensures Assembled(fetches) == Retrieved(f)
  {
  }

  /** If it does change, the assembly can be a configuration that never existed. */
  lemma TornAssembly(a: Config, b: Config)
    requires a.allowedClusterRoles != b.allowedClusterRoles && a.selfApprovalEnabled != b.selfApprovalEnabled
    ensures exists fetches: seq<Fetch> ::
              && |fetches| == ACCESSORS && (forall r | r in fetches :: r == Found(a) || r == Found(b))
              && Assembled(fetches) != a && Assembled(fetches) != b
  {
    var fetches := [Found(a)] + seq(ACCESSORS - 1, _ => Found(b));
    assert forall r | r in fetches :: r == Found(a) || r == Found(b);
    assert Assembled(fetches).allowedClusterRoles == a.allowedClusterRoles;
    assert Assembled(fetches).selfApprovalEnabled == b.selfApprovalEnabled;
  }

  // The cache

  /** `Spoiled`: truncated and not completely written, so that it does not parse. */
  datatype File = Absent | Complete(cfg: Config) | Spoiled

  datatype Disk = Writable | NotOpened | WriteFails

  datatype Event =
    | Pattern(pattern: string)           // a non-empty pattern was compiled
    | Saved(file: File)                  // the file was truncated and written, completely or not
    | Restarted

  type Compiler = string -> Option<Matcher>

  predicate SetsRegex(e: Event) {
    e.Pattern? || e.Restarted?
  }

  predicate LastToSetRegex(history: seq<Event>, i: int) {
    0 <= i < |history| && SetsRegex(history[i]) && forall j | i < j < |history| :: !SetsRegex(history[j])
  }

  predicate LastToSave(history: seq<Event>, i: int) {
    0 <= i < |history| && history[i].Saved? && forall j | i < j < |history| :: !history[j].Saved?
  }

  /** The enforced pattern: the compilation of the last non-empty pattern seen since the start, if it compiled. */
  ghost predicate RegexFollows(history: seq<Event>, compile: Compiler, regex: Option<Matcher>) {
    && (forall i | LastToSetRegex(history, i) ::
          regex == if history[i].Pattern? then compile(history[i].pattern) else None)
    && ((forall i | 0 <= i < |history| :: !SetsRegex(history[i])) ==> regex == None)
  }

  /** The file: what the last save left. */
  ghost predicate FileFollows(history: seq<Event>, file: File) {
    && (forall i | LastToSave(history, i) :: file == history[i].file)
    && ((forall i | 0 <= i < |history| :: !history[i].Saved?) ==> file == Absent)
  }

  lemma RegexFollowsNext(history: seq<Event>, e: Event, compile: Compiler, regex: Option<Matcher>)
    requires RegexFollows(history, compile, regex)
    ensures RegexFollows(history + [e], compile,
                         if e.Pattern? then compile(e.pattern) else if e.Restarted? then None else regex)
  {
    forall i | LastToSetRegex(history + [e], i)
      ensures i == |history| || (!SetsRegex(e) && LastToSetRegex(history, i))
    {
      if i < |history| {
        assert (history + [e])[|history|] == e;
        forall j | i < j < |history| ensures !SetsRegex(history[j]) {
          assert (history + [e])[j] == history[j];
        }
      }
    }
    if forall i | 0 <= i < |history + [e]| :: !SetsRegex((history + [e])[i]) {
      assert !SetsRegex((history + [e])[|history|]);
      forall i | 0 <= i < |history| ensures !SetsRegex(history[i]) {
        assert (history + [e])[i] == history[i];
      }
    }
  }

  lemma FileFollowsNext(history: seq<Event>, e: Event, file: File)
    requires FileFollows(history, file)
    ensures FileFollows(history + [e], if e.Saved? then e.file else file)
  {
    forall i | LastToSave(history + [e], i) ensures i == |history| || (!e.Saved? && LastToSave(history, i)) {
      if i < |history| {
        assert (history + [e])[|history|] == e;
        forall j | i < j < |history| ensures !history[j].Saved? {
          assert (history + [e])[j] == history[j];
        }
      }
    }
    if forall i | 0 <= i < |history + [e]| :: !(history + [e])[i].Saved? {
      assert !(history + [e])[|history|].Saved?;
      forall i | 0 <= i < |history| ensures !history[i].Saved? {
        assert (history + [e])[i] == history[i];
      }
    }
  }

  function SaveEvents(fetches: seq<Fetch>, disk: Disk): seq<Event>
    requires |fetches| == ACCESSORS
  {
    if disk == NotOpened || !AllAvailable(fetches) then []
    else [Saved(if disk == Writable then Complete(Assembled(fetches)) else Spoiled)]
  }

  /** What one reconcile does: the pattern of the first fetch, then the save, unless the pattern is invalid. */
  function ReconcileEvents(first: Fetch, fetches: seq<Fetch>, disk: Disk, compile: Compiler): seq<Event>
    requires |fetches| == ACCESSORS
  {
    if !Available(first) then []
    else
      var pattern := Retrieved(first).namespaceRegex;
      if pattern == "" then SaveEvents(fetches, disk)
      else if compile(pattern).None? then [Pattern(pattern)]
      else [Pattern(pattern)] + SaveEvents(fetches, disk)
  }

  class Cache {
    const compile: Compiler
    var regex: Option<Matcher>
    var file: File
    ghost var history: seq<Event>

    ghost predicate Valid()
      reads this
    {
      RegexFollows(history, compile, regex) && FileFollows(history, file)
    }

    /** What is enforced is what the file says. */
    ghost predicate Agrees()
      reads this
    {
      file.Complete? && regex == if file.cfg.namespaceRegex == "" then None else compile(file.cfg.namespaceRegex)
    }

    /** No namespace is refused. */
    ghost predicate AcceptsAll()
      reads this
    {
      forall namespaces :: RegexAccepts(regex, namespaces)
    }

    /** The file asks for no pattern, or for one that does not compile. */
    ghost predicate FileAcceptsAll()
      reads this
    {
      file.Complete? && (file.cfg.namespaceRegex == "" || compile(file.cfg.namespaceRegex) == None)
    }

    constructor (compiler: Compiler)
      ensures Valid() && history == [] && compile == compiler
    {
      compile := compiler;
      regex, file, history := None, Absent, [];
    }

    ghost method Record(e: Event)
      requires RegexFollows(history + [e], compile, regex) && FileFollows(history + [e], file)
      modifies this`history
      ensures Valid() && history == old(history) + [e]
    {
      history := history + [e];
    }

    /** The process restarts: its memory is lost, the file is not. */
    method Restart()
      requires Valid()
      modifies this
      ensures Valid() && history == old(history) + [Restarted] && file == old(file) && regex == None
      ensures AcceptsAll() && (Agrees() <==> FileAcceptsAll())
    {
      RegexFollowsNext(history, Restarted, compile, regex);
      FileFollowsNext(history, Restarted, file);
      regex := None;
      Record(Restarted);
    }

    /** The accessor calls: the first one whose fetch fails ends the reconcile. */
    static method FetchAll(fetches: seq<Fetch>) returns (ok: bool)
      ensures ok <==> AllAvailable(fetches)
    {
      for i := 0 to |fetches|
        invariant AllAvailable(fetches[..i])
      {
        if fetches[i].Unavailable? {
          assert fetches[i] in fetches && !Available(fetches[i]);
          return false;
        }
      }
      assert fetches[..|fetches|] == fetches;
      return true;
    }

    /** A save replaces the file by the assembly, leaves it spoiled, or does not touch it. */
    method SaveConfigToFile(fetches: seq<Fetch>, disk: Disk) returns (ok: bool)
      requires Valid() && |fetches| == ACCESSORS
      modifies this
      ensures Valid() && regex == old(regex)
      ensures var saved := SaveEvents(fetches, disk);
              history == old(history) + saved && file == if saved == [] then old(file) else saved[0].file
      ensures file ==
              if disk == NotOpened || exists f | f in fetches :: f.Unavailable? then old(file)
              else if disk == WriteFails then Spoiled
              else Complete(Assembled(fetches))
      ensures ok <==> disk == Writable && AllAvailable(fetches)
    {
      ok := FetchAll(fetches);
      if !ok || disk == NotOpened {
        return false;
      }
      ghost var e := SaveEvents(fetches, disk)[0];
      RegexFollowsNext(history, e, compile, regex);
      FileFollowsNext(history, e, file);
      file := if disk == Writable then Complete(Assembled(fetches)) else Spoiled;
      Record(e);
      return disk == Writable;
    }

    /** Compiles a non-empty pattern into the global; an invalid one clears it. */
    method SetPattern(pattern: string) returns (ok: bool)
      requires Valid() && pattern != ""
      modifies this
      ensures Valid() && file == old(file) && history == old(history) + [Pattern(pattern)]
      ensures regex == compile(pattern) && (ok <==> regex.Some?)
    {
      RegexFollowsNext(history, Pattern(pattern), compile, regex);
      FileFollowsNext(history, Pattern(pattern), file);
      regex := compile(pattern);
      Record(Pattern(pattern));
      return regex.Some?;
    }

    /**
     `Reconcile`, with one fetch for the pattern and then those of the save. `Valid` says that,
     after any history, the pattern is the last non-empty one and the file what the last save
     left. After a success the file is the object, if that did not change between the fetches; and
     the enforced pattern agrees with the file, if the pattern did not change between its two
     fetches, exactly if there is a pattern or none was enforced before. A pattern is enforced from the
     moment it is read, whether or not the save succeeds. An invalid pattern fails the reconcile and
     leaves nothing enforced, whatever the file says.
     */
    method Reconcile(first: Fetch, fetches: seq<Fetch>, disk: Disk) returns (ok: bool)
      requires Valid() && |fetches| == ACCESSORS
      modifies this
      ensures Valid() && history == old(history) + ReconcileEvents(first, fetches, disk, compile)
      ensures ok <==>
                && Available(first) && AllAvailable(fetches) && disk == Writable
                && (Retrieved(first).namespaceRegex != "" ==> compile(Retrieved(first).namespaceRegex).Some?)
      ensures match first
              case Found(cfg) => regex == if cfg.namespaceRegex == "" then old(regex) else compile(cfg.namespaceRegex)
              case NotFound => regex == compile(".*")
              case Unavailable => regex == old(regex)
      ensures var refused := match first
                             case Found(cfg) => cfg.namespaceRegex != "" && compile(cfg.namespaceRegex) == None
                             case NotFound => compile(".*") == None
                             case Unavailable => true;
              file ==
              if refused || disk == NotOpened || exists f | f in fetches :: f.Unavailable? then old(file)
              else if disk == WriteFails then Spoiled
              else Complete(Assembled(fetches))
      ensures ok && Steady(fetches, first) ==>
                file == Complete(if first.Found? then first.cfg else DEFAULT_CONFIG)
      ensures ok && Retrieved(first).namespaceRegex == Retrieved(fetches[PATTERN_ACCESSOR]).namespaceRegex ==>
                (Agrees() <==> Retrieved(first).namespaceRegex != "" || old(regex) == None)
      ensures !ok && disk != WriteFails ==> file == old(file)
      ensures Available(first) && Retrieved(first).namespaceRegex != ""
                && compile(Retrieved(first).namespaceRegex) == None ==>
                !ok && file == old(file) && AcceptsAll() && (Agrees() <==> FileAcceptsAll())
    {
      if first.Unavailable? {
        return false;
      }
      var pattern := Retrieved(first).namespaceRegex;
      if pattern != "" {
        ok := SetPattern(pattern);
        if !ok {
          return;
        }
      }
      ok := SaveConfigToFile(fetches, disk);
      if ok {
        if Steady(fetches, first) {
          SteadyAssembly(fetches, first);
        }
      }
    }
  }

  // Histories

  /** Saves with an empty pattern never lift the enforced one. */
  lemma EmptyPatternKeepsEnforced(history: seq<Event>, saves: seq<Event>, compile: Compiler,
                                  was: Option<Matcher>, now: Option<Matcher>)
    requires forall e | e in saves :: e.Saved?
    requires RegexFollows(history, compile, was) && RegexFollows(history + saves, compile, now)
    ensures now == was
  {
    if i :| LastToSetRegex(history, i) {
      forall j | i < j < |history + saves| ensures !SetsRegex((history + saves)[j]) {
        if j >= |history| {
          assert (history + saves)[j] in saves;
        }
      }
      assert LastToSetRegex(history + saves, i);
    } else {
      NoneSets(history);
      forall i | 0 <= i < |history + saves| ensures !SetsRegex((history + saves)[i]) {
        if i >= |history| {
          assert (history + saves)[i] in saves;
        }
      }
    }
  }

  lemma {:induction false} NoneSets(history: seq<Event>)
    requires forall i :: !LastToSetRegex(history, i)
    ensures forall i | 0 <= i < |history| :: !SetsRegex(history[i])
  {
    if history != [] {
      var n := |history| - 1;
      assert !LastToSetRegex(history, n);
      forall i ensures !LastToSetRegex(history[..n], i) {
        assert !LastToSetRegex(history, i);
      }
      NoneSets(history[..n]);
      forall i | 0 <= i < |history| ensures !SetsRegex(history[i]) {
        if i < n {
          assert history[..n][i] == history[i];
        }
      }
    }
  }
}

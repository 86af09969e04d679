/**
 The lock around the configuration file. Saves truncate the file and then write it piece by piece;
 reads also take it piece by piece. Any number of readers and a writer interleave in any order the
 lock allows, and each finished read has the whole content one finished save left behind.
 */
module ConfigLock {
  import opened Types

  /** A save under the write lock: the data it will write, and how far it has got. */
  datatype Writer = Writer(data: string, truncated: bool, written: nat)

  /** A read under the read lock: the number of saves finished when it began, and the text so far. */
  datatype Reader = Reader(since: nat, text: string)

  /** A finished save; unless it got as far as truncating the file, it did not touch it. */
  datatype Save = Save(data: string, truncated: bool, written: nat)

  /** A finished read: the saves finished at its beginning and its end, and its text unless it failed. */
  datatype Reading = Reading(since: nat, until: nat, text: Option<string>)

  datatype System = System(
    file: Option<string>,
    writer: Option<Writer>,
    readers: map<nat, Reader>,
    saves: seq<Save>,
    readings: seq<Reading>)

  datatype Step =
    | Lock(data: string)
    | Truncate
    | Append(count: nat)
    | Unlock                       // at the end of the data, or after a failure
    | ReadLock(id: nat)
    | Read(id: nat, count: nat)
    | ReadUnlock(id: nat)          // at the end of the file
    | ReadFails(id: nat)

  predicate Enabled(s: System, step: Step) {
    match step
    case Lock(_) => s.writer.None? && s.readers == map[]
    case Truncate => s.writer.Some? && !s.writer.value.truncated
    case Append(n) => s.writer.Some? && s.writer.value.truncated && s.writer.value.written + n <= |s.writer.value.data|
    case Unlock => s.writer.Some?
    case ReadLock(i) => s.writer.None? && i !in s.readers
    case Read(i, n) => i in s.readers && s.file.Some? && |s.readers[i].text| + n <= |s.file.value|
    case ReadUnlock(i) => i in s.readers && s.file.Some? && |s.readers[i].text| == |s.file.value|
    case ReadFails(i) => i in s.readers
  }

  function EndRead(s: System, id: nat, text: Option<string>): System
    requires id in s.readers
  {
    s.(readers := s.readers - {id}, readings := s.readings + [Reading(s.readers[id].since, |s.saves|, text)])
  }

  function Apply(s: System, step: Step): System {
    if !Enabled(s, step) then s
    else match step
      case Lock(data) => s.(writer := Some(Writer(data, false, 0)))
      case Truncate => s.(file := Some(""), writer := Some(s.writer.value.(truncated := true)))
      case Append(n) =>
        var w := s.writer.value;
        s.(file := Some((if s.file.Some? then s.file.value else "") + w.data[w.written..w.written + n]),
           writer := Some(w.(written := w.written + n)))
      case Unlock =>
        var w := s.writer.value;
        s.(writer := None, saves := s.saves + [Save(w.data, w.truncated, w.written)])
      case ReadLock(i) => s.(readers := s.readers[i := Reader(|s.saves|, "")])
      case Read(i, n) =>
        var r := s.readers[i];
        s.(readers := s.readers[i := r.(text := r.text + s.file.value[|r.text|..|r.text| + n])])
      case ReadUnlock(i) => EndRead(s, i, Some(s.readers[i].text))
      case ReadFails(i) => EndRead(s, i, None)
  }

  function Run(s: System, steps: seq<Step>): System {
    if steps == [] then s else Apply(Run(s, steps[..|steps| - 1]), steps[|steps| - 1])
  }

  predicate Init(s: System) {
    s.writer.None? && s.readers == map[] && s.saves == [] && s.readings == []
  }

  /** What the saves, one after the other, leave in the file. */
  function Left(file: Option<string>, saves: seq<Save>): Option<string> {
    if saves == [] then file
    else
      var last := saves[|saves| - 1];
      if !last.truncated then Left(file, saves[..|saves| - 1])
      else if last.written <= |last.data| then Some(last.data[..last.written])
      else Some(last.data)
  }

  // The invariant

  predicate WriterOk(first: Option<string>, s: System) {
    if s.writer.Some? && s.writer.value.truncated then
      && s.writer.value.written <= |s.writer.value.data|
      && s.file == Some(s.writer.value.data[..s.writer.value.written])
    else s.file == Left(first, s.saves) && (s.writer.Some? ==> s.writer.value.written == 0)
  }

  predicate ReaderOk(s: System, r: Reader) {
    r.since == |s.saves| && r.text <= if s.file.Some? then s.file.value else ""
  }

  predicate ReadingOk(first: Option<string>, saves: seq<Save>, r: Reading) {
    && r.since == r.until <= |saves|
    && (r.text.Some? ==> Left(first, saves[..r.since]) == r.text)
  }

  ghost predicate Inv(first: Option<string>, s: System) {
    && (s.writer.Some? ==> s.readers == map[])
    && WriterOk(first, s)
    && (forall i | i in s.readers :: ReaderOk(s, s.readers[i]))
    && (forall r | r in s.readings :: ReadingOk(first, s.saves, r))
  }

  lemma ReadingsKeep(first: Option<string>, s: System, save: Save)
    requires forall r | r in s.readings :: ReadingOk(first, s.saves, r)
    ensures forall r | r in s.readings :: ReadingOk(first, s.saves + [save], r)
  {
    forall r | r in s.readings ensures ReadingOk(first, s.saves + [save], r) {
      assert ReadingOk(first, s.saves, r);
      assert (s.saves + [save])[..r.since] == s.saves[..r.since];
    }
  }

  lemma WriterStepKeepsInv(first: Option<string>, s: System, step: Step)
    requires Inv(first, s) && Enabled(s, step)
    requires step.Lock? || step.Truncate? || step.Append? || step.Unlock?
    ensures Inv(first, Apply(s, step))
  {
    if step.Append? {
      var w := s.writer.value;
      assert w.data[..w.written] + w.data[w.written..w.written + step.count] == w.data[..w.written + step.count];
    } else if step.Unlock? {
      var w := s.writer.value;
      ReadingsKeep(first, s, Save(w.data, w.truncated, w.written));
      assert (s.saves + [Save(w.data, w.truncated, w.written)])[..|s.saves|] == s.saves;
    }
  }

  lemma EndReadKeepsInv(first: Option<string>, s: System, i: nat, text: Option<string>)
    requires Inv(first, s) && i in s.readers && (text.Some? ==> text == s.file)
    ensures Inv(first, EndRead(s, i, text))
  {
    assert ReaderOk(s, s.readers[i]);
    assert s.saves[..|s.saves|] == s.saves;
    var end := EndRead(s, i, text);
    forall r | r in end.readings ensures ReadingOk(first, end.saves, r) {
      if r !in s.readings {
        assert r == Reading(|s.saves|, |s.saves|, text);
      }
    }
  }

  lemma ReaderStepKeepsInv(first: Option<string>, s: System, step: Step)
    requires Inv(first, s) && Enabled(s, step)
    requires step.ReadLock? || step.Read? || step.ReadUnlock? || step.ReadFails?
    ensures Inv(first, Apply(s, step))
  {
    match step
    case ReadLock(_) =>
    case Read(i, n) =>
      assert ReaderOk(s, s.readers[i]);
      assert ReaderOk(s, Apply(s, step).readers[i]);
    case ReadUnlock(i) =>
      assert ReaderOk(s, s.readers[i]);
      assert s.readers[i].text == s.file.value[..|s.readers[i].text|] == s.file.value;
      EndReadKeepsInv(first, s, i, Some(s.readers[i].text));
    case ReadFails(i) => EndReadKeepsInv(first, s, i, None);
  }

  lemma {:induction false} InvHolds(s: System, steps: seq<Step>)
    requires Init(s)
    ensures Inv(s.file, Run(s, steps))
  {
    if steps != [] {
      var n := |steps| - 1;
      InvHolds(s, steps[..n]);
      var t := Run(s, steps[..n]);
      if Enabled(t, steps[n]) {
        if steps[n].Lock? || steps[n].Truncate? || steps[n].Append? || steps[n].Unlock? {
          WriterStepKeepsInv(s.file, t, steps[n]);
        } else {
          ReaderStepKeepsInv(s.file, t, steps[n]);
        }
      }
    }
  }

  /**
   Atomic reads: under any interleaving, no save finishes while a read is under way, and the text
   a read returns is, whole, what the saves finished by then left in the file.
   */
  lemma ReadsAreAtomic(s: System, steps: seq<Step>, r: Reading)
    requires Init(s) && r in Run(s, steps).readings
    ensures r.since == r.until <= |Run(s, steps).saves|
    ensures r.text.Some? ==> Left(s.file, Run(s, steps).saves[..r.since]) == r.text
  {
    InvHolds(s, steps);
  }

  // Configurations

  /** An encoding like JSON objects: it decodes, and no proper beginning of it does. */
  ghost predicate Codec(encode: Config -> string, parse: string -> Option<Config>) {
    && (forall c :: parse(encode(c)) == Some(c))
    && (forall c, n | 0 <= n < |encode(c)| :: parse(encode(c)[..n]) == None)
  }

  predicate SavesConfigs(encode: Config -> string, configs: seq<Config>, saves: seq<Save>) {
    |configs| == |saves| && forall k | 0 <= k < |saves| :: saves[k].data == encode(configs[k])
  }

  predicate IsWhole(save: Save) {
    save.truncated && save.written >= |save.data|
  }

  predicate LastOpened(saves: seq<Save>, k: int) {
    0 <= k < |saves| && saves[k].truncated && forall j | k < j < |saves| :: !saves[j].truncated
  }

  lemma {:induction false} LeftByLast(file: Option<string>, saves: seq<Save>, k: int)
    requires LastOpened(saves, k)
    ensures Left(file, saves) == Left(file, saves[..k + 1])
  {
    var n := |saves| - 1;
    if k < n {
      LeftByLast(file, saves[..n], k);
      assert saves[..n][..k + 1] == saves[..k + 1];
    } else {
      assert saves[..k + 1] == saves;
    }
  }

  /**
   A read that returns text parses to the configuration of the last save that truncated the file, if
   that save was completed, and fails to parse otherwise: never a mixture.
   */
  lemma ReadIsWholeOrError(s: System, steps: seq<Step>, r: Reading, k: int, configs: seq<Config>,
                           encode: Config -> string, parse: string -> Option<Config>)
    requires Init(s) && r in Run(s, steps).readings && r.text.Some?
    requires r.since <= |Run(s, steps).saves| && LastOpened(Run(s, steps).saves[..r.since], k)
    requires Codec(encode, parse) && SavesConfigs(encode, configs, Run(s, steps).saves)
    ensures parse(r.text.value) == if IsWhole(Run(s, steps).saves[k]) then Some(configs[k]) else None
  {
    ReadsAreAtomic(s, steps, r);
    var saves := Run(s, steps).saves;
    LeftByLast(s.file, saves[..r.since], k);
    var save := saves[k];
    assert saves[..r.since][..k + 1][k] == save;
    assert save.data == encode(configs[k]);
    if IsWhole(save) {
      assert save.data[..|save.data|] == save.data;
    } else {
      assert r.text == Some(encode(configs[k])[..save.written]);
    }
  }
}

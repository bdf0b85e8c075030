/** The identifier-assignment policy of `addID` (main.ts:34-57) on values:
    a check of the frontmatter, the choice of a generator, and a write of
    one key; and the sequential run of that policy over a list of notes
    that the batch commands perform (main.ts:64, 73, 92). */
module Assignment {
  import opened Js
  import opened PluginSettings

  /** The parts of a host `TFile` the plugin looks at. */
  datatype File = File(path: string, extension: string, ctime: int)

  /** A note's YAML frontmatter, as a plain JavaScript object. */
  type Header = map<string, Value>

  /** The ID generators, both outside the plugin: `random(length, k)` is the
      `k`-th string drawn from the random source for the given length (a
      `ShortUniqueId` instance's `rnd()`), and `format(ctime, pattern)` is
      moment's rendering of a creation time in milliseconds. */
  datatype IdGen = IdGen(random: (int, nat) -> string, format: (int, string) -> string)

  /** Everything `addID` reads and writes: the frontmatter of each note that
      has one, by path, and how many strings have been drawn from the random
      source. */
  datatype VaultState = VaultState(headers: map<string, Header>, draws: nat)

  /** The outcome of one `addID` call. */
  datatype Outcome = Assigned(id: string) | AlreadyExists

  /** A notice shown to the user. */
  datatype Notice =
    | AlreadyHasId(path: string)   // "<path> 中 uuid 已经存在"
    | Processing(count: nat)       // "正在给<count>个笔记添加uuid，但是"
    | NotMarkdownNote              // "当前文件不是md笔记"

  datatype Step = Step(state: VaultState, outcome: Outcome)
  datatype Batch = Batch(state: VaultState, notices: seq<Notice>)

  /** The frontmatter of the note at `path`; `None` when it has none. */
  function FrontmatterOf(st: VaultState, path: string): Option<Header> {
    if path in st.headers then Some(st.headers[path]) else None
  }

  /** The frontmatter `processFrontMatter` hands to its callback: the note's
      own, or an empty one that it creates. */
  function HeaderOf(st: VaultState, path: string): Header {
    FrontmatterOf(st, path).GetOr(map[])
  }

  /** The properties every plain object inherits from `Object.prototype`.
      Each is a function, or for `__proto__` the prototype object itself,
      so reading one of them gives a truthy value. */
  predicate IsObjectPrototypeKey(key: string) {
    key in {"constructor", "hasOwnProperty", "isPrototypeOf", "propertyIsEnumerable",
            "toLocaleString", "toString", "valueOf", "__proto__",
            "__defineGetter__", "__defineSetter__", "__lookupGetter__", "__lookupSetter__"}
  }

  /** `frontmatter?.[key]` is truthy. Without frontmatter the optional
      chain gives undefined. With frontmatter, an own property counts when
      its value is truthy, and a key the note does not define is looked up
      on the prototype chain. */
  predicate HasId(fm: Option<Header>, key: string)
    ensures fm == None ==> !HasId(fm, key)
    ensures fm.Some? && key in fm.value ==> (HasId(fm, key) <==> Truthy(fm.value[key]))
    ensures fm.Some? && key !in fm.value ==> (HasId(fm, key) <==> IsObjectPrototypeKey(key))
  {
    match fm
    case None => false
    case Some(h) => if key in h then Truthy(h[key]) else IsObjectPrototypeKey(key)
  }

  /** One `addID` call on note `f`. */
  function Assign(st: VaultState, f: File, s: Settings, gen: IdGen): (r: Step)
    // an existing ID is kept: nothing is written and the skip is reported
    ensures HasId(FrontmatterOf(st, f.path), s.uuidKey) <==> r.outcome == AlreadyExists
    ensures r.outcome == AlreadyExists ==> r.state == st
    // otherwise exactly the key of this note's frontmatter is written
    ensures r.outcome.Assigned? ==>
              FrontmatterOf(r.state, f.path) == Some(HeaderOf(st, f.path)[s.uuidKey := Str(r.outcome.id)])
    ensures forall p :: p != f.path ==> FrontmatterOf(r.state, p) == FrontmatterOf(st, p)
    // the generator is chosen by the style
    ensures r.outcome.Assigned? && s.uuidStyle == 1 ==>
              r.outcome.id == gen.random(s.uuidLength, st.draws) && r.state.draws == st.draws + 1
    ensures r.outcome.Assigned? && s.uuidStyle != 1 ==>
              r.outcome.id == gen.format(f.ctime, s.dateFormat) && r.state.draws == st.draws
  {
    if HasId(FrontmatterOf(st, f.path), s.uuidKey) then
      Step(st, AlreadyExists)
    else
      var id := if s.uuidStyle == 1 then gen.random(s.uuidLength, st.draws)
                else gen.format(f.ctime, s.dateFormat);
      var draws := if s.uuidStyle == 1 then st.draws + 1 else st.draws;
      Step(VaultState(st.headers[f.path := HeaderOf(st, f.path)[s.uuidKey := Str(id)]], draws), Assigned(id))
  }

  /** The notice `addID` shows for an outcome. */
  function NoticeFor(f: File, o: Outcome): seq<Notice> {
    if o == AlreadyExists then [AlreadyHasId(f.path)] else []
  }

  /** A second `addID` on the same note, right after the first, writes
      nothing exactly when the first left a non-empty ID (or found one). */
  lemma AssignTwice(st: VaultState, f: File, s: Settings, gen: IdGen)
    ensures var first := Assign(st, f, s, gen);
            Assign(first.state, f, s, gen).outcome == AlreadyExists
            <==> (first.outcome.Assigned? ==> first.outcome.id != "")
  {
  }

  /** `files.forEach(addID)`, one call after another. The only notices are
      skips, at most one per note. */
  function Run(st: VaultState, files: seq<File>, s: Settings, gen: IdGen): (r: Batch)
    ensures forall k :: 0 <= k < |r.notices| ==> r.notices[k].AlreadyHasId?
    ensures |r.notices| <= |files|
    decreases |files|
  {
    if files == [] then Batch(st, [])
    else
      var before := Run(st, files[..|files| - 1], s, gen);
      var f := files[|files| - 1];
      var step := Assign(before.state, f, s, gen);
      Batch(step.state, before.notices + NoticeFor(f, step.outcome))
  }

  /** The generators never give the empty string for these settings and
      notes, so every ID written is truthy. */
  ghost predicate NonEmptyIds(s: Settings, gen: IdGen, files: seq<File>) {
    (s.uuidStyle == 1 ==> forall k: nat :: gen.random(s.uuidLength, k) != "") &&
    (s.uuidStyle != 1 ==> forall k :: 0 <= k < |files| ==> gen.format(files[k].ctime, s.dateFormat) != "")
  }

  predicate DistinctPaths(files: seq<File>) {
    forall i, j :: 0 <= i < j < |files| ==> files[i].path != files[j].path
  }

  /** One skip notice for each note of `files` whose frontmatter in `st`
      already holds an ID, in the order of `files`. */
  function SkipsFor(st: VaultState, files: seq<File>, key: string): (r: seq<Notice>)
    ensures forall k :: 0 <= k < |r| ==> r[k].AlreadyHasId?
    ensures forall p :: AlreadyHasId(p) in r <==>
                          (exists k :: 0 <= k < |files| && files[k].path == p) && HasId(FrontmatterOf(st, p), key)
    decreases |files|
  {
    if files == [] then []
    else
      var prefix := files[..|files| - 1];
      var f := files[|files| - 1];
      var rest := SkipsFor(st, prefix, key);
      assert forall k :: 0 <= k < |prefix| ==> prefix[k] == files[k];
      if HasId(FrontmatterOf(st, f.path), key) then rest + [AlreadyHasId(f.path)] else rest
  }

  /** A note whose path is not in the batch keeps its frontmatter, or keeps
      having none. */
  lemma {:induction false} RunLeavesOthers(st: VaultState, files: seq<File>, s: Settings, gen: IdGen, p: string)
    requires forall k :: 0 <= k < |files| ==> files[k].path != p
    ensures FrontmatterOf(Run(st, files, s, gen).state, p) == FrontmatterOf(st, p)
    decreases |files|
  {
    if files != [] {
      RunLeavesOthers(st, files[..|files| - 1], s, gen, p);
    }
  }

  /** A note that already had an ID keeps its whole frontmatter. */
  lemma {:induction false} RunKeepsExisting(st: VaultState, files: seq<File>, s: Settings, gen: IdGen, p: string)
    requires HasId(FrontmatterOf(st, p), s.uuidKey)
    ensures FrontmatterOf(Run(st, files, s, gen).state, p) == FrontmatterOf(st, p)
    decreases |files|
  {
    if files != [] {
      RunKeepsExisting(st, files[..|files| - 1], s, gen, p);
    }
  }

  /** A batch changes no frontmatter key other than the ID key. */
  lemma {:induction false} RunTouchesOnlyKey(st: VaultState, files: seq<File>, s: Settings, gen: IdGen, p: string)
    ensures HeaderOf(Run(st, files, s, gen).state, p) - {s.uuidKey} == HeaderOf(st, p) - {s.uuidKey}
    decreases |files|
  {
    if files != [] {
      var before := Run(st, files[..|files| - 1], s, gen);
      RunTouchesOnlyKey(st, files[..|files| - 1], s, gen, p);
      var step := Assign(before.state, files[|files| - 1], s, gen);
      if step.outcome.Assigned? && p == files[|files| - 1].path {
        var h := HeaderOf(before.state, p);
        assert h[s.uuidKey := Str(step.outcome.id)] - {s.uuidKey} == h - {s.uuidKey};
      }
    }
  }

  /** After a batch whose IDs are non-empty, every note in it has an ID. */
  lemma {:induction false} RunTagsEvery(st: VaultState, files: seq<File>, s: Settings, gen: IdGen)
    requires NonEmptyIds(s, gen, files)
    ensures forall k :: 0 <= k < |files| ==> HasId(FrontmatterOf(Run(st, files, s, gen).state, files[k].path), s.uuidKey)
    decreases |files|
  {
    if files != [] {
      var prefix := files[..|files| - 1];
      var f := files[|files| - 1];
      assert NonEmptyIds(s, gen, prefix) by {
        forall k | 0 <= k < |prefix| ensures prefix[k] == files[k] { }
      }
      RunTagsEvery(st, prefix, s, gen);
      var before := Run(st, prefix, s, gen);
      var step := Assign(before.state, f, s, gen);
      forall k | 0 <= k < |files|
        ensures HasId(FrontmatterOf(step.state, files[k].path), s.uuidKey)
      {
        if files[k].path != f.path {
          assert files[k] == prefix[k];
        }
      }
    }
  }

  /** With distinct paths, the batch reports exactly one skip for each of
      its notes that already had an ID before it, in batch order, and
      nothing else. */
  lemma {:induction false} RunReportsExactlyExisting(st: VaultState, files: seq<File>, s: Settings, gen: IdGen)
    requires DistinctPaths(files)
    ensures Run(st, files, s, gen).notices == SkipsFor(st, files, s.uuidKey)
    decreases |files|
  {
    if files != [] {
      var prefix := files[..|files| - 1];
      var f := files[|files| - 1];
      assert DistinctPaths(prefix);
      RunReportsExactlyExisting(st, prefix, s, gen);
      RunLeavesOthers(st, prefix, s, gen, f.path);
    }
  }

  /** Two markdown notes with the default settings: `a.md` without an ID and
      `b.md` with `uuid: x`. A run over both gives `a.md` the first random
      string of length 10 and leaves `b.md` alone, with one skip reported. */
  lemma DefaultRunOverTwoNotes(gen: IdGen, ctimeA: int, ctimeB: int)
    ensures var a := File("a.md", "md", ctimeA);
            var b := File("b.md", "md", ctimeB);
            var st := VaultState(map["b.md" := map["uuid" := Str("x")]], 0);
            var result := Run(st, [a, b], Defaults, gen);
            FrontmatterOf(result.state, "a.md") == Some(map["uuid" := Str(gen.random(10, 0))]) &&
            FrontmatterOf(result.state, "b.md") == Some(map["uuid" := Str("x")]) &&
            result.notices == [AlreadyHasId("b.md")]
  {
    var a := File("a.md", "md", ctimeA);
    var b := File("b.md", "md", ctimeB);
    var st := VaultState(map["b.md" := map["uuid" := Str("x")]], 0);
    assert [a, b][..1] == [a];
    assert [a][..0] == [];
    assert Run(st, [], Defaults, gen) == Batch(st, []);
    var step := Assign(st, a, Defaults, gen);
    assert !HasId(FrontmatterOf(st, "a.md"), "uuid");
    assert step.outcome == Assigned(gen.random(10, 0));
    var first := Run(st, [a], Defaults, gen);
    assert first == Batch(step.state, [] + NoticeFor(a, step.outcome));
    assert first.notices == [];
    assert HeaderOf(first.state, "a.md") == map["uuid" := Str(gen.random(10, 0))];
    assert HeaderOf(first.state, "b.md") == map["uuid" := Str("x")];
    assert HasId(FrontmatterOf(first.state, "b.md"), "uuid");
  }

  /** With the key set to `constructor`, a note whose frontmatter is
      `{title: t}` already "has" an ID, inherited from `Object.prototype`,
      and is skipped; a note without frontmatter is given one. */
  lemma InheritedKeyCountsAsId(gen: IdGen, ctime: int)
    ensures var s := Defaults.(uuidKey := "constructor");
            var st := VaultState(map["t.md" := map["title" := Str("t")]], 0);
            Assign(st, File("t.md", "md", ctime), s, gen).outcome == AlreadyExists &&
            Assign(st, File("n.md", "md", ctime), s, gen).outcome.Assigned?
  {
  }
}

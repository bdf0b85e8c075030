/** The three commands the plugin registers (main.ts:58-133), run against a
    vault whose frontmatter they change in place. */
module Commands {
  import opened Js
  import opened PluginSettings
  import opened Assignment
  import opened Selection

  /** Filtering a list of notes with distinct paths keeps them distinct. */
  lemma {:induction false} FilterKeepsDistinct(files: seq<File>, keep: File -> bool)
    requires DistinctPaths(files)
    ensures DistinctPaths(Filter(files, keep))
    decreases |files|
  {
    if files != [] {
      assert DistinctPaths(files[1..]);
      FilterKeepsDistinct(files[1..], keep);
      var rest := Filter(files[1..], keep);
      if keep(files[0]) {
        var r := [files[0]] + rest;
        forall i, j | 0 <= i < j < |r| ensures r[i].path != r[j].path {
          if i == 0 {
            assert r[j] in files[1..];
          }
        }
      }
    }
  }

  /** The host vault as far as the commands go: its notes, their
      frontmatter by path, and the state of the random source. */
  class Vault {
    var files: seq<File>
    var headers: map<string, Header>
    var draws: nat

    /** Every note of the vault has its own path. */
    predicate Valid()
      reads this
    {
      DistinctPaths(files)
    }

    constructor (files: seq<File>, headers: map<string, Header>)
      requires DistinctPaths(files)
      ensures Valid()
      ensures this.files == files && this.headers == headers && draws == 0
    {
      this.files := files;
      this.headers := headers;
      draws := 0;
    }

    function State(): VaultState
      reads this
    {
      VaultState(headers, draws)
    }

    /** `vault.getMarkdownFiles()`. */
    function MarkdownFiles(): (r: seq<File>)
      reads this
      ensures forall f :: f in r <==> f in files && IsMarkdown(f)
      ensures Valid() ==> DistinctPaths(r)
    {
      if Valid() then FilterKeepsDistinct(files, IsMarkdown); Filter(files, IsMarkdown)
      else Filter(files, IsMarkdown)
    }

    /** `addID` on one note: write a fresh ID at the key unless the
        frontmatter already holds a truthy value there. */
    method AddID(f: File, s: Settings, gen: IdGen) returns (outcome: Outcome)
      modifies this
      ensures files == old(files)
      ensures Step(State(), outcome) == Assign(old(State()), f, s, gen)
    {
      var key := s.uuidKey;
      var frontmatter := if f.path in headers then Some(headers[f.path]) else None;
      if !HasId(frontmatter, key) {
        var uuid := "";
        if s.uuidStyle == 1 {
          uuid := gen.random(s.uuidLength, draws);
          draws := draws + 1;
        } else {
          uuid := gen.format(f.ctime, s.dateFormat);
        }
        headers := headers[f.path := frontmatter.GetOr(map[])[key := Str(uuid)]];
        outcome := Assigned(uuid);
      } else {
        outcome := AlreadyExists;
      }
    }

    /** `targets.forEach(addID)`, the calls made one after another. */
    method AddIDsTo(targets: seq<File>, s: Settings, gen: IdGen) returns (notices: seq<Notice>)
      modifies this
      ensures files == old(files)
      ensures Batch(State(), notices) == Run(old(State()), targets, s, gen)
    {
      notices := [];
      var i := 0;
      while i < |targets|
        invariant 0 <= i <= |targets|
        invariant files == old(files)
        invariant Batch(State(), notices) == Run(old(State()), targets[..i], s, gen)
      {
        var outcome := AddID(targets[i], s, gen);
        notices := notices + NoticeFor(targets[i], outcome);
        assert targets[..i + 1][..i] == targets[..i];
        i := i + 1;
      }
      assert targets[..i] == targets;
    }

    /** "Add an UUID to all notes besides blacklist". A non-empty blacklist
        first announces how many notes will be processed. */
    method AddIDsToAllNotesBesidesBlacklist(s: Settings, gen: IdGen) returns (notices: seq<Notice>)
      requires Valid()
      modifies this
      ensures Valid() && files == old(files)
      ensures var targets := BesidesBlacklist(MarkdownFiles(), s.blacklist);
              var batch := Run(old(State()), targets, s, gen);
              State() == batch.state &&
              notices == (if s.blacklist == [] then [] else [Processing(|targets|)]) + batch.notices &&
              batch.notices == SkipsFor(old(State()), targets, s.uuidKey)
    {
      var blacklist := s.blacklist;
      var targets;
      if |blacklist| == 0 {
        targets := MarkdownFiles();
        notices := [];
      } else {
        targets := BesidesBlacklist(MarkdownFiles(), blacklist);
        notices := [Processing(|targets|)];
      }
      FilterKeepsDistinct(MarkdownFiles(), NotBlacklisted(blacklist));
      RunReportsExactlyExisting(State(), targets, s, gen);
      var reported := AddIDsTo(targets, s, gen);
      notices := notices + reported;
    }

    /** "Add an UUID to whitelist notes". An empty whitelist does nothing;
        otherwise the count is announced first. */
    method AddIDsToWhitelist(s: Settings, gen: IdGen) returns (notices: seq<Notice>)
      requires Valid()
      modifies this
      ensures Valid() && files == old(files)
      ensures s.whitelist == [] ==> State() == old(State()) && notices == []
      ensures s.whitelist != [] ==>
                var targets := InWhitelist(MarkdownFiles(), s.whitelist);
                var batch := Run(old(State()), targets, s, gen);
                State() == batch.state && notices == [Processing(|targets|)] + batch.notices &&
                batch.notices == SkipsFor(old(State()), targets, s.uuidKey)
    {
      var whitelist := s.whitelist;
      if |whitelist| == 0 {
        notices := [];
        return;
      }
      var targets := InWhitelist(MarkdownFiles(), whitelist);
      notices := [Processing(|targets|)];
      FilterKeepsDistinct(MarkdownFiles(), Whitelisted(whitelist));
      RunReportsExactlyExisting(State(), targets, s, gen);
      var reported := AddIDsTo(targets, s, gen);
      notices := notices + reported;
    }

    /** "Add an UUID to current note", given the workspace's active file. */
    method AddIDToCurrentNote(active: Option<File>, s: Settings, gen: IdGen) returns (notices: seq<Notice>)
      requires Valid()
      modifies this
      ensures Valid() && files == old(files)
      ensures ChooseActive(active) == NoActiveFile ==> State() == old(State()) && notices == []
      ensures ChooseActive(active) == NotMarkdown ==> State() == old(State()) && notices == [NotMarkdownNote]
      ensures ChooseActive(active).Chosen? ==>
                var step := Assign(old(State()), active.value, s, gen);
                State() == step.state && notices == NoticeFor(active.value, step.outcome)
    {
      if active == None {
        return [];
      }
      var currentFile := active.value;
      if currentFile.extension != "md" {
        return [NotMarkdownNote];
      }
      var outcome := AddID(currentFile, s, gen);
      notices := NoticeFor(currentFile, outcome);
    }
  }
}

/** Which notes each command hands to `addID` (main.ts:58-110): the
    blacklist filter, the whitelist filter and the active-note guard. */
module Selection {
  import opened Js
  import opened PluginSettings
  import opened Assignment

  /** `patterns.some(p => path.includes(p))`. No list matches when it is
      empty, and every path matches a list holding the empty entry. */
  predicate MatchesAny(path: string, patterns: seq<string>)
    ensures patterns == [] ==> !MatchesAny(path, patterns)
    ensures "" in patterns ==> MatchesAny(path, patterns)
  {
    exists k :: 0 <= k < |patterns| && Includes(path, patterns[k])
  }

  /** A path matches a list exactly when some entry of the list occurs in
      the path at some index. */
  lemma MatchesAnyIff(path: string, patterns: seq<string>)
    ensures MatchesAny(path, patterns) <==> exists k, i :: 0 <= k < |patterns| && MatchesAt(path, patterns[k], i)
  {
    forall k | 0 <= k < |patterns| {
      IncludesIff(path, patterns[k]);
    }
  }

  /** A note `getMarkdownFiles` lists, and the guard of the current-note
      command. */
  predicate IsMarkdown(f: File) {
    f.extension == "md"
  }

  function NotBlacklisted(blacklist: seq<string>): File -> bool {
    (f: File) => !MatchesAny(f.path, blacklist)
  }

  function Whitelisted(whitelist: seq<string>): File -> bool {
    (f: File) => MatchesAny(f.path, whitelist)
  }

  /** The notes "add to all notes besides blacklist" processes. An empty
      blacklist is short-cut to every note; that gives what the filter
      would give. A note is processed exactly when its path holds no
      blacklist entry, in the original order and multiplicity. */
  function BesidesBlacklist(files: seq<File>, blacklist: seq<string>): (r: seq<File>)
    ensures blacklist == [] ==> r == files
    ensures r == Filter(files, NotBlacklisted(blacklist))
    ensures forall f :: f in r <==> f in files && !MatchesAny(f.path, blacklist)
    ensures IsSubsequence(r, files)
    ensures forall f :: multiset(r)[f] == if MatchesAny(f.path, blacklist) then 0 else multiset(files)[f]
  {
    if |blacklist| == 0 then
      FilterKeepsAll(files, NotBlacklisted(blacklist));
      files
    else Filter(files, NotBlacklisted(blacklist))
  }

  /** The notes "add to whitelist notes" processes. An empty whitelist is
      short-cut to none; that too gives what the filter would give. A note
      is processed exactly when its path holds some whitelist entry, in the
      original order and multiplicity. */
  function InWhitelist(files: seq<File>, whitelist: seq<string>): (r: seq<File>)
    ensures whitelist == [] ==> r == []
    ensures r == Filter(files, Whitelisted(whitelist))
    ensures forall f :: f in r <==> f in files && MatchesAny(f.path, whitelist)
    ensures IsSubsequence(r, files)
    ensures forall f :: multiset(r)[f] == if MatchesAny(f.path, whitelist) then multiset(files)[f] else 0
  {
    if |whitelist| == 0 then
      FilterKeepsNone(files, Whitelisted(whitelist));
      []
    else Filter(files, Whitelisted(whitelist))
  }

  /** An empty entry occurs in every path, so a blacklist holding one
      blocks every note and a whitelist holding one admits every note. */
  lemma EmptyEntryMatchesAll(files: seq<File>, patterns: seq<string>)
    requires "" in patterns
    ensures BesidesBlacklist(files, patterns) == []
    ensures InWhitelist(files, patterns) == files
  {
    FilterKeepsNone(files, NotBlacklisted(patterns));
    FilterKeepsAll(files, Whitelisted(patterns));
  }

  /** The list text areas store `value.split("\n")`. A text area that was
      emptied, or whose text ends in a line break, stores a list with an
      empty entry: as a blacklist it blocks every note, as a whitelist it
      admits every note. */
  lemma EmptiedTextArea(files: seq<File>, value: string)
    requires value == "" || value[|value| - 1] == LineBreak
    ensures "" in Split(value, LineBreak)
    ensures BesidesBlacklist(files, Split(value, LineBreak)) == []
    ensures InWhitelist(files, Split(value, LineBreak)) == files
  {
    var parts := Split(value, LineBreak);
    if value != "" {
      SplitTrailingSeparator(value, LineBreak);
      assert parts[|parts| - 1] == "";
    }
    EmptyEntryMatchesAll(files, parts);
  }

  /** What the current-note command does with the active file. */
  datatype ActiveChoice = NoActiveFile | NotMarkdown | Chosen(f: File)

  /** With no active file nothing happens, a non-markdown file is refused,
      and only a markdown file is passed on. */
  function ChooseActive(active: Option<File>): (c: ActiveChoice)
    ensures c == NoActiveFile <==> active == None
    ensures c == NotMarkdown <==> active.Some? && !IsMarkdown(active.value)
    ensures c.Chosen? <==> active.Some? && IsMarkdown(active.value)
    ensures c.Chosen? ==> active == Some(c.f)
  {
    match active
    case None => NoActiveFile
    case Some(f) => if f.extension != "md" then NotMarkdown else Chosen(f)
  }
}

/**
applyMountFlags: the client configuration file, read as lines `key=value`, is rewritten with the
mount flags. Comments and other lines stay, keys of the file keep their place, new keys follow.
*/
module ConfigOverride {
  import opened Wrappers
  import opened Strings

  const CACHE_KEY := "disk_cache.cache_dir"

  // ---------- reading a configuration ----------

  predicate Assigns(line: string) {
    !HasPrefix(line, "#") && '=' in line
  }

  /** The two parts of strings.SplitN(line, "=", 2). */
  function Key(line: string): string
    requires '=' in line
  {
    BeforeIndex(line, '=');
    line[..Index(line, "=")]
  }

  function Val(line: string): string
    requires '=' in line
  {
    BeforeIndex(line, '=');
    line[Index(line, "=") + 1..]
  }

  /** The configuration that lines give: the last assignment of a key wins. */
  function Parse(lines: seq<string>): map<string, string> {
    if lines == [] then map[]
    else
      var m, line := Parse(lines[..|lines| - 1]), lines[|lines| - 1];
      if Assigns(line) then m[Key(line) := Val(line)] else m
  }

  /** What the flags assign; the last one wins, and flags without `=` are skipped. */
  function Flags(flags: seq<string>): map<string, string> {
    if flags == [] then map[]
    else
      var m, flag := Flags(flags[..|flags| - 1]), flags[|flags| - 1];
      if '=' in flag then m[Key(flag) := Val(flag)] else m
  }

  function Merged(lines: seq<string>, flags: seq<string>): map<string, string> {
    Parse(lines) + Flags(flags)
  }

  function Comments(lines: seq<string>): seq<string> {
    if lines == [] then []
    else
      var rest := Comments(lines[..|lines| - 1]);
      if Assigns(lines[|lines| - 1]) then rest else rest + [lines[|lines| - 1]]
  }

  // ---------- cache directories ----------

  /** The directory of one cache entry, with the mount id below it. */
  function CachePath(dir: string, id: string): string {
    var i := Index(dir, ":");
    (if i == -1 then dir else dir[..i]) + "/" + id
  }

  function CacheEntry(dir: string, id: string): string {
    var i := Index(dir, ":");
    CachePath(dir, id) + if i == -1 then "" else dir[i..]
  }

  /** On parts: the mount id goes below the directory and before the capacity. */
  lemma {:induction false} CacheEntryParts(d: string, size: string, id: string)
    requires ':' !in d
    ensures CacheEntry(d + ":" + size, id) == d + "/" + id + ":" + size && CachePath(d + ":" + size, id) == d + "/" + id
    ensures CacheEntry(d, id) == d + "/" + id == CachePath(d, id)
  {
    SplitAt(d, ':', size);
    var dir := d + [':'] + size;
    assert dir[..|d|] == d && dir[|d|..] == ":" + size;
    assert d + "/" + id + "" == d + "/" + id;
  }

  function CachePaths(dirs: seq<string>, id: string): seq<string> {
    seq(|dirs|, i requires 0 <= i < |dirs| => CachePath(dirs[i], id))
  }

  function CacheEntries(dirs: seq<string>, id: string): seq<string> {
    seq(|dirs|, i requires 0 <= i < |dirs| => CacheEntry(dirs[i], id))
  }

  function Suffixed(value: string, id: string): string {
    Join(CacheEntries(Split(value, ";"), id), ";")
  }

  /** Every entry of a suffixed value, read back, is the old entry with the mount id below its directory. */
  lemma SuffixedEntries(value: string, id: string)
    requires ';' !in id
    ensures Split(Suffixed(value, id), ";") == CacheEntries(Split(value, ";"), id)
    ensures Split(Join(CachePaths(Split(value, ";"), id), ";"), ";") == CachePaths(Split(value, ";"), id)
  {
    var dirs := Split(value, ";");
    SplitFree(value, ';');
    forall i | 0 <= i < |dirs|
      ensures ';' !in CachePath(dirs[i], id) && ';' !in CacheEntry(dirs[i], id)
    {
      EntryFree(dirs[i], id, ';');
    }
    SplitJoin(CacheEntries(dirs, id), ';');
    SplitJoin(CachePaths(dirs, id), ';');
  }

  lemma EntryFree(dir: string, id: string, c: char)
    requires c !in dir && c !in id && c != '/'
    ensures c !in CachePath(dir, id) && c !in CacheEntry(dir, id)
  {
  }

  lemma {:induction false} JoinFree(parts: seq<string>, c: char)
    requires AllFree(parts, c) && c != ';'
    ensures c !in Join(parts, ";")
    decreases |parts|
  {
    if |parts| > 1 {
      JoinFree(parts[1..], c);
    }
  }

  lemma {:induction false} JoinGrows(old_: seq<string>, new_: seq<string>)
    requires |old_| == |new_| > 0
    requires forall i | 0 <= i < |old_| :: |old_[i]| < |new_[i]|
    ensures |Join(old_, ";")| < |Join(new_, ";")|
    decreases |old_|
  {
    if |old_| > 1 {
      JoinGrows(old_[1..], new_[1..]);
    }
  }

  /** Suffixing always changes the value. */
  lemma SuffixedDiffers(value: string, id: string)
    ensures Suffixed(value, id) != value
  {
    var dirs := Split(value, ";");
    JoinSplit(value, ";");
    JoinGrows(dirs, CacheEntries(dirs, id));
  }

  lemma {:induction false} SplitKeepsOut(s: string, sep: string, c: char)
    requires sep != [] && c !in s
    ensures AllFree(Split(s, sep), c)
    decreases |s|
  {
    var i := Index(s, sep);
    if i != -1 {
      SplitKeepsOut(s[i + |sep|..], sep, c);
      assert Split(s, sep) == [s[..i]] + Split(s[i + |sep|..], sep);
    }
  }

  lemma SuffixedFree(value: string, id: string, c: char)
    requires c !in value && c !in id && c != '/' && c != ';'
    ensures c !in Suffixed(value, id)
  {
    var dirs := Split(value, ";");
    SplitKeepsOut(value, ";", c);
    forall i | 0 <= i < |dirs|
      ensures c !in CacheEntry(dirs[i], id)
    {
      EntryFree(dirs[i], id, c);
    }
    JoinFree(CacheEntries(dirs, id), c);
  }

  // ---------- rewriting ----------

  function Line(key: string, value: string): string {
    key + "=" + value
  }

  function NewValue(key: string, value: string, id: string): string {
    if key == CACHE_KEY then Suffixed(value, id) else value
  }

  /** The lines written for the lines of the file: only the first line of a key is rewritten. */
  function Rewritten(lines: seq<string>, config: map<string, string>, id: string): seq<string> {
    if lines == [] then []
    else
      var init, line := lines[..|lines| - 1], lines[|lines| - 1];
      var done := Rewritten(init, config, id);
      if Assigns(line) && Key(line) !in Parse(init) && Key(line) in config
      then done + [Line(Key(line), NewValue(Key(line), config[Key(line)], id))] else done + [line]
  }

  function Remaining(order: seq<string>, config: map<string, string>): seq<string>
    requires forall i | 0 <= i < |order| :: order[i] in config
  {
    if order == [] then []
    else
      var k := order[|order| - 1];
      Remaining(order[..|order| - 1], config) + [Line(k, config[k])]
  }

  /** `order` lists the keys that only the flags have, each once. */
  predicate Orders(order: seq<string>, lines: seq<string>, config: map<string, string>) {
    && (forall i | 0 <= i < |order| :: order[i] in config && order[i] !in Parse(lines))
    && (forall k | k in config && k !in Parse(lines) :: k in order)
    && (forall i, j | 0 <= i < j < |order| :: order[i] != order[j])
  }

  function Output(lines: seq<string>, flags: seq<string>, id: string, order: seq<string>): seq<string>
    requires Orders(order, lines, Merged(lines, flags))
  {
    Rewritten(lines, Merged(lines, flags), id) + Remaining(order, Merged(lines, flags))
  }

  /** Every line is written with a line break after it. */
  function Text(lines: seq<string>): string {
    if lines == [] then "" else Text(lines[..|lines| - 1]) + lines[|lines| - 1] + "\n"
  }

  // ---------- the intended meaning ----------

  function Intended(lines: seq<string>, flags: seq<string>, id: string): map<string, string> {
    var config := Merged(lines, flags);
    map k | k in config :: if k == CACHE_KEY && k in Parse(lines) then Suffixed(config[k], id) else config[k]
  }

  /** Keys that more than one line assigns. */
  function Repeated(lines: seq<string>): set<string> {
    if lines == [] then {}
    else
      var init, line := lines[..|lines| - 1], lines[|lines| - 1];
      if Assigns(line) && Key(line) in Parse(init) then Repeated(init) + {Key(line)} else Repeated(init)
  }

  predicate PlainFlags(flags: seq<string>) {
    forall i | 0 <= i < |flags| :: !HasPrefix(flags[i], "#")
  }

  // ---------- lemmas about one line ----------

  lemma {:induction false} Cut(key: string, value: string)
    requires '=' !in key && !HasPrefix(key, "#")
    ensures Assigns(Line(key, value)) && Key(Line(key, value)) == key && Val(Line(key, value)) == value
  {
    var line := key + ['='] + value;
    SplitAt(key, '=', value);
    assert line[|key|] == '=';
    assert line[..|key|] == key && line[|key| + 1..] == value;
    assert line[..1] == if key == [] then "=" else key[..1];
  }

  /** A key is what Cut asks for. */
  lemma {:induction false} KeyIsPlain(line: string)
    requires '=' in line && !HasPrefix(line, "#")
    ensures '=' !in Key(line) && !HasPrefix(Key(line), "#")
  {
    BeforeIndex(line, '=');
    var i := Index(line, "=");
    if i > 0 {
      assert line[..i][..1] == line[..1];
    }
  }

  lemma {:induction false} FlagsArePlain(flags: seq<string>, k: string)
    requires k in Flags(flags) && PlainFlags(flags)
    ensures '=' !in k && !HasPrefix(k, "#")
    decreases |flags|
  {
    var flag := flags[|flags| - 1];
    if '=' in flag && Key(flag) == k {
      KeyIsPlain(flag);
    } else {
      FlagsArePlain(flags[..|flags| - 1], k);
    }
  }

  lemma {:induction false} ParseSnoc(lines: seq<string>, line: string)
    ensures Parse(lines + [line]) == if Assigns(line) then Parse(lines)[Key(line) := Val(line)] else Parse(lines)
    ensures Comments(lines + [line]) == if Assigns(line) then Comments(lines) else Comments(lines) + [line]
  {
  }

  /** A configuration is what its lines assign, comments aside: the last line of a key gives its value, ... */
  lemma {:induction false} ParseIsLast(lines: seq<string>, i: nat)
    requires i < |lines| && !HasPrefix(lines[i], "#") && '=' in lines[i]
    requires forall j | i < j < |lines| && !HasPrefix(lines[j], "#") && '=' in lines[j] :: Key(lines[j]) != Key(lines[i])
    ensures Key(lines[i]) in Parse(lines) && Parse(lines)[Key(lines[i])] == Val(lines[i])
    decreases |lines|
  {
    if i < |lines| - 1 {
      ParseIsLast(lines[..|lines| - 1], i);
    }
  }

  /** ... and every key has a line. */
  lemma {:induction false} ParseHasLine(lines: seq<string>, k: string) returns (i: nat)
    requires k in Parse(lines)
    ensures i < |lines| && !HasPrefix(lines[i], "#") && '=' in lines[i] && Key(lines[i]) == k
    decreases |lines|
  {
    i := |lines| - 1;
    if !(Assigns(lines[i]) && Key(lines[i]) == k) {
      i := ParseHasLine(lines[..i], k);
    }
  }

  /** Likewise the flags: the last one for a key wins, ... */
  lemma {:induction false} FlagsAreLast(flags: seq<string>, i: nat)
    requires i < |flags| && '=' in flags[i] && forall j | i < j < |flags| && '=' in flags[j] :: Key(flags[j]) != Key(flags[i])
    ensures Key(flags[i]) in Flags(flags) && Flags(flags)[Key(flags[i])] == Val(flags[i])
    decreases |flags|
  {
    if i < |flags| - 1 {
      FlagsAreLast(flags[..|flags| - 1], i);
    }
  }

  /** ... and one without `=` says nothing. */
  lemma {:induction false} FlagsHaveFlag(flags: seq<string>, k: string) returns (i: nat)
    requires k in Flags(flags)
    ensures i < |flags| && '=' in flags[i] && Key(flags[i]) == k
    decreases |flags|
  {
    i := |flags| - 1;
    if !('=' in flags[i] && Key(flags[i]) == k) {
      i := FlagsHaveFlag(flags[..i], k);
    }
  }

  /** Flags override the file. */
  lemma FlagsOverride(lines: seq<string>, flags: seq<string>, id: string, k: string)
    ensures k in Intended(lines, flags, id) <==> k in Parse(lines) || k in Flags(flags)
    ensures k in Intended(lines, flags, id) && !(k == CACHE_KEY && k in Parse(lines)) ==>
              Intended(lines, flags, id)[k] == if k in Flags(flags) then Flags(flags)[k] else Parse(lines)[k]
  {
  }

  // ---------- what the rewritten lines mean ----------

  /** The value the rewritten file gives a key of the old one. */
  function Kept(lines: seq<string>, config: map<string, string>, id: string, k: string): string
    requires k in config && k in Parse(lines)
  {
    if k in Repeated(lines) then Parse(lines)[k]
    else NewValue(k, config[k], id)
  }

  ghost predicate Means(out: seq<string>, lines: seq<string>, config: map<string, string>, id: string) {
    && Parse(out).Keys == Parse(lines).Keys <= config.Keys
    && (forall k | k in Parse(lines) :: Parse(out)[k] == Kept(lines, config, id, k))
    && Comments(out) == Comments(lines)
  }

  lemma {:induction false} FirstLine(
      out: seq<string>, lines: seq<string>, line: string, written: string, config: map<string, string>, id: string)
    requires Means(out, lines, config, id)
    requires Assigns(line) && Key(line) !in Parse(lines) && Key(line) in config
    requires Assigns(written) && Key(written) == Key(line) && Val(written) == NewValue(Key(line), config[Key(line)], id)
    ensures Means(out + [written], lines + [line], config, id)
  {
    ParseSnoc(out, written);
    ParseSnoc(lines, line);
    RepeatedAssigned(lines);
    assert (lines + [line])[..|lines|] == lines;
    assert Repeated(lines + [line]) == Repeated(lines);
  }

  lemma {:induction false} LaterLine(out: seq<string>, lines: seq<string>, line: string, config: map<string, string>, id: string)
    requires Means(out, lines, config, id)
    requires !(Assigns(line) && Key(line) !in Parse(lines))
    ensures Means(out + [line], lines + [line], config, id)
  {
  }

  /** A key with one line gets its new value there; one with several keeps the value of the last. */
  lemma {:induction false} RewrittenMeans(lines: seq<string>, config: map<string, string>, id: string)
    requires Parse(lines).Keys <= config.Keys
    ensures Means(Rewritten(lines, config, id), lines, config, id)
    decreases |lines|
  {
    if lines != [] {
      var init, line := lines[..|lines| - 1], lines[|lines| - 1];
      RewrittenMeans(init, config, id);
      assert lines == init + [line];
      if Assigns(line) && Key(line) !in Parse(init) {
        var written := NewValue(Key(line), config[Key(line)], id);
        KeyIsPlain(line);
        Cut(Key(line), written);
        FirstLine(Rewritten(init, config, id), init, line, Line(Key(line), written), config, id);
      } else {
        LaterLine(Rewritten(init, config, id), init, line, config, id);
      }
    }
  }

  lemma {:induction false} RepeatedAssigned(lines: seq<string>)
    ensures Repeated(lines) <= Parse(lines).Keys
    decreases |lines|
  {
    if lines != [] {
      RepeatedAssigned(lines[..|lines| - 1]);
    }
  }

  /** What the keys in `order` mean, taken from `config`. */
  function Picked(order: seq<string>, config: map<string, string>): map<string, string>
    requires forall i | 0 <= i < |order| :: order[i] in config
  {
    map k | k in order :: config[k]
  }

  lemma {:induction false} PickedSnoc(before: map<string, string>, order: seq<string>, k: string, config: map<string, string>)
    requires k in config && forall i | 0 <= i < |order| :: order[i] in config
    ensures before + Picked(order + [k], config) == (before + Picked(order, config))[k := config[k]]
  {
  }

  /** The lines `rest` add what the keys in `order` mean, and no comment. */
  ghost predicate Adds(before: seq<string>, rest: seq<string>, order: seq<string>, config: map<string, string>)
    requires forall i | 0 <= i < |order| :: order[i] in config
  {
    Parse(before + rest) == Parse(before) + Picked(order, config) && Comments(before + rest) == Comments(before)
  }

  lemma {:induction false} RemainingMeans(before: seq<string>, order: seq<string>, config: map<string, string>)
    requires forall i | 0 <= i < |order| :: order[i] in config && '=' !in order[i] && !HasPrefix(order[i], "#")
    ensures Adds(before, Remaining(order, config), order, config)
    decreases |order|
  {
    if order == [] {
      AddsNone(before, config);
    } else {
      var init, k := order[..|order| - 1], order[|order| - 1];
      RemainingMeans(before, init, config);
      AddsStep(before, Remaining(init, config), init, k, config);
      assert order == init + [k];
      assert Remaining(order, config) == Remaining(init, config) + [Line(k, config[k])];
    }
  }

  lemma {:induction false} AddsNone(before: seq<string>, config: map<string, string>)
    ensures Adds(before, [], [], config)
  {
    var none: seq<string> := [];
    assert before + none == before;
  }

  lemma {:induction false} AddsStep(before: seq<string>, rest: seq<string>, init: seq<string>, k: string, config: map<string, string>)
    requires k in config && '=' !in k && !HasPrefix(k, "#") && forall i | 0 <= i < |init| :: init[i] in config
    requires Adds(before, rest, init, config)
    ensures Adds(before, rest + [Line(k, config[k])], init + [k], config)
  {
    Cut(k, config[k]);
    ParseSnoc(before + rest, Line(k, config[k]));
    PickedSnoc(Parse(before), init, k, config);
    assert before + (rest + [Line(k, config[k])]) == before + rest + [Line(k, config[k])];
  }

  /** The whole output, as lines: what each key means in it. */
  lemma OutputMeans(lines: seq<string>, flags: seq<string>, id: string, order: seq<string>)
    requires PlainFlags(flags) && Orders(order, lines, Merged(lines, flags))
    ensures var config := Merged(lines, flags);
            Parse(Output(lines, flags, id, order))
            == map k | k in config :: if k in Parse(lines) then Kept(lines, config, id, k) else config[k]
    ensures Comments(Output(lines, flags, id, order)) == Comments(lines)
  {
    var config := Merged(lines, flags);
    RewrittenMeans(lines, config, id);
    forall i | 0 <= i < |order|
      ensures '=' !in order[i] && !HasPrefix(order[i], "#")
    {
      FlagsArePlain(flags, order[i]);
    }
    RemainingMeans(Rewritten(lines, config, id), order, config);
    PickedRest(lines, config, order);
    Union(Parse(Rewritten(lines, config, id)), Picked(order, config),
          map k | k in config :: if k in Parse(lines) then Kept(lines, config, id, k) else config[k]);
  }

  lemma Union(a: map<string, string>, b: map<string, string>, want: map<string, string>)
    requires want.Keys == a.Keys + b.Keys && a.Keys !! b.Keys
    requires forall k | k in a :: a[k] == want[k]
    requires forall k | k in b :: b[k] == want[k]
    ensures a + b == want
  {
  }

  lemma PickedRest(lines: seq<string>, config: map<string, string>, order: seq<string>)
    requires Orders(order, lines, config)
    ensures Picked(order, config).Keys == config.Keys - Parse(lines).Keys
  {
  }

  // ---------- main results ----------

  /** The last line of a key that the file assigns twice already has the intended value. */
  predicate RepeatsSettled(lines: seq<string>, flags: seq<string>, id: string) {
    forall k | k in Repeated(lines) && k in Parse(lines) :: Parse(lines)[k] == Intended(lines, flags, id)[k]
  }

  /**
  The rewritten lines mean the old ones overridden by the flags if and only if no key with two lines
  was to change; comments and other lines stay in order.
  */
  lemma OverrideIff(lines: seq<string>, flags: seq<string>, id: string, order: seq<string>)
    requires PlainFlags(flags) && Orders(order, lines, Merged(lines, flags))
    ensures Parse(Output(lines, flags, id, order)) == Intended(lines, flags, id) <==> RepeatsSettled(lines, flags, id)
    ensures Comments(Output(lines, flags, id, order)) == Comments(lines)
  {
    OutputMeans(lines, flags, id, order);
    RepeatedAssigned(lines);
    EqualIff(Parse(Output(lines, flags, id, order)), Intended(lines, flags, id), Parse(lines), Repeated(lines));
  }

  lemma EqualIff(m: map<string, string>, want: map<string, string>, before: map<string, string>, odd: set<string>)
    requires m.Keys == want.Keys && odd <= before.Keys <= want.Keys
    requires forall k | k in want :: m[k] == if k in odd then before[k] else want[k]
    ensures m == want <==> forall k | k in odd && k in before :: before[k] == want[k]
  {
  }

  /** With two lines for the cache directory and no flag for it, the mount id is always lost. */
  lemma RepeatedCacheLost(lines: seq<string>, flags: seq<string>, id: string, order: seq<string>)
    requires PlainFlags(flags) && Orders(order, lines, Merged(lines, flags))
    requires CACHE_KEY in Repeated(lines) && CACHE_KEY !in Flags(flags)
    ensures Parse(Output(lines, flags, id, order)) != Intended(lines, flags, id)
  {
    RepeatedAssigned(lines);
    SuffixedDiffers(Parse(lines)[CACHE_KEY], id);
    OverrideIff(lines, flags, id, order);
  }

  /** With two lines for another key, any flag that changes it is lost. */
  lemma RepeatedFlagLost(lines: seq<string>, flags: seq<string>, id: string, order: seq<string>, k: string)
    requires PlainFlags(flags) && Orders(order, lines, Merged(lines, flags))
    requires k in Repeated(lines) && k in Parse(lines) && k != CACHE_KEY && k in Flags(flags) && Flags(flags)[k] != Parse(lines)[k]
    ensures var m := Parse(Output(lines, flags, id, order)); k in m && m[k] == Parse(lines)[k] != Intended(lines, flags, id)[k]
  {
    OutputMeans(lines, flags, id, order);
  }

  /** For instance, the two lines k=x and k=y with the flag k=z: the new file says y. */
  lemma RepeatedFlagOccurs(k: string, x: string, y: string, z: string, id: string)
    requires '=' !in k && !HasPrefix(k, "#") && k != CACHE_KEY && y != z
    ensures Orders([], [Line(k, x)] + [Line(k, y)], Merged([Line(k, x)] + [Line(k, y)], [Line(k, z)]))
    ensures var m := Parse(Output([Line(k, x)] + [Line(k, y)], [Line(k, z)], id, [])); k in m && m[k] == y
  {
    var lines, flags := [Line(k, x)] + [Line(k, y)], [Line(k, z)];
    Cut(k, x);
    Cut(k, y);
    Cut(k, z);
    assert [] + [Line(k, x)] == [Line(k, x)];
    ParseSnoc([], Line(k, x));
    ParseSnoc([Line(k, x)], Line(k, y));
    assert lines[..1] == [Line(k, x)] && flags[..0] == [];
    assert Parse(lines) == map[k := y] && Flags(flags) == map[k := z];
    assert k in Repeated(lines);
    RepeatedFlagLost(lines, flags, id, [], k);
  }

  // ---------- as text ----------

  predicate OneLine(lines: seq<string>) {
    forall i | 0 <= i < |lines| :: '\n' !in lines[i]
  }

  lemma {:induction false} TextIsJoin(lines: seq<string>)
    ensures Text(lines) == Join(lines + [""], "\n")
    decreases |lines|
  {
    if lines != [] {
      var init, line := lines[..|lines| - 1], lines[|lines| - 1];
      TextIsJoin(init);
      JoinSnoc(init, line);
      assert lines == init + [line];
    }
  }

  lemma {:induction false} JoinSnoc(parts: seq<string>, line: string)
    ensures Join(parts + [line] + [""], "\n") == Join(parts + [""], "\n") + line + "\n"
    decreases |parts|
  {
    if parts == [] {
      assert parts + [line] + [""] == [line, ""] && parts + [""] == [""];
      assert [line, ""][1..] == [""];
      assert Join([line, ""], "\n") == line + "\n" + Join([""], "\n");
    } else {
      var rest := parts[1..];
      JoinSnoc(rest, line);
      assert (parts + [line] + [""])[1..] == rest + [line] + [""];
      assert (parts + [""])[1..] == rest + [""];
    }
  }

  /** Reading the written text gives the lines, and an empty one at the end. */
  lemma {:induction false} TextSplits(lines: seq<string>)
    requires OneLine(lines)
    ensures Split(Text(lines), "\n") == lines + [""]
  {
    TextIsJoin(lines);
    SplitJoin(lines + [""], '\n');
  }

  lemma {:induction false} ParsedOneLine(lines: seq<string>, k: string)
    requires OneLine(lines) && k in Parse(lines)
    ensures '\n' !in k && '\n' !in Parse(lines)[k]
    decreases |lines|
  {
    var line := lines[|lines| - 1];
    if !(Assigns(line) && Key(line) == k) {
      ParsedOneLine(lines[..|lines| - 1], k);
    }
  }

  lemma {:induction false} FlagsOneLine(flags: seq<string>, k: string)
    requires OneLine(flags) && k in Flags(flags)
    ensures '\n' !in k && '\n' !in Flags(flags)[k]
    decreases |flags|
  {
    var flag := flags[|flags| - 1];
    if !('=' in flag && Key(flag) == k) {
      FlagsOneLine(flags[..|flags| - 1], k);
    }
  }

  lemma {:induction false} RewrittenOneLine(lines: seq<string>, config: map<string, string>, id: string)
    requires OneLine(lines) && '\n' !in id && forall k | k in config :: '\n' !in k && '\n' !in config[k]
    ensures OneLine(Rewritten(lines, config, id))
    decreases |lines|
  {
    if lines != [] {
      var init, line := lines[..|lines| - 1], lines[|lines| - 1];
      RewrittenOneLine(init, config, id);
      if Assigns(line) && Key(line) in config {
        SuffixedFree(config[Key(line)], id, '\n');
      }
    }
  }

  lemma {:induction false} RemainingOneLine(order: seq<string>, config: map<string, string>)
    requires forall i | 0 <= i < |order| :: order[i] in config
    requires forall k | k in config :: '\n' !in k && '\n' !in config[k]
    ensures OneLine(Remaining(order, config))
    decreases |order|
  {
    if order != [] {
      RemainingOneLine(order[..|order| - 1], config);
    }
  }

  /** The new file, for the file `text` and any order of the new keys. */
  function NewText(text: string, flags: seq<string>, id: string, order: seq<string>): string
    requires Orders(order, Split(text, "\n"), Merged(Split(text, "\n"), flags))
  {
    Text(Output(Split(text, "\n"), flags, id, order))
  }

  /** From text to text: the override keeps its meaning, and one empty line is added at the end. */
  lemma TextOverrideIff(text: string, flags: seq<string>, id: string, order: seq<string>)
    requires PlainFlags(flags) && OneLine(flags) && '\n' !in id
    requires Orders(order, Split(text, "\n"), Merged(Split(text, "\n"), flags))
    ensures var lines, lines' := Split(text, "\n"), Split(NewText(text, flags, id, order), "\n");
            && (Parse(lines') == Intended(lines, flags, id) <==> RepeatsSettled(lines, flags, id))
            && Comments(lines') == Comments(lines) + [""]
  {
    var lines := Split(text, "\n");
    var config, out := Merged(lines, flags), Output(lines, flags, id, order);
    SplitFree(text, '\n');
    forall k | k in config
      ensures '\n' !in k && '\n' !in config[k]
    {
      if k in Flags(flags) {
        FlagsOneLine(flags, k);
      } else {
        ParsedOneLine(lines, k);
      }
    }
    RewrittenOneLine(lines, config, id);
    RemainingOneLine(order, config);
    TextSplits(out);
    OverrideIff(lines, flags, id, order);
    ParseSnoc(out, "");
  }

  // ---------- the code ----------

  predicate EnablesCache(flag: string) {
    '=' in flag && Key(flag) == "diskCache.diskCacheType" && (Val(flag) == "2" || Val(flag) == "1")
  }

  /** The two values of one key that turn the disk cache on. */
  lemma CacheFlags(k: string, v: string)
    requires '=' !in k && !HasPrefix(k, "#")
    ensures EnablesCache(Line(k, v)) <==> k == "diskCache.diskCacheType" && (v == "1" || v == "2")
  {
    Cut(k, v);
  }

  method ReadLines(lines: seq<string>) returns (config: map<string, string>)
    ensures config == Parse(lines)
  {
    config := map[];
    for i := 0 to |lines|
      invariant config == Parse(lines[..i])
    {
      ParseSnoc(lines[..i], lines[i]);
      assert lines[..i + 1] == lines[..i] + [lines[i]];
      if Assigns(lines[i]) {
        config := config[Key(lines[i]) := Val(lines[i])];
      }
    }
    assert lines[..|lines|] == lines;
  }

  lemma {:induction false} FlagsSnoc(base: map<string, string>, flags: seq<string>, flag: string)
    ensures base + Flags(flags + [flag]) == if '=' in flag then (base + Flags(flags))[Key(flag) := Val(flag)] else base + Flags(flags)
  {
    assert (flags + [flag])[..|flags|] == flags;
  }

  method ReadConfig(lines: seq<string>, flags: seq<string>) returns (config: map<string, string>, cacheEnabled: bool)
    ensures config == Merged(lines, flags)
    ensures cacheEnabled <==> exists i | 0 <= i < |flags| :: EnablesCache(flags[i])
  {
    config := ReadLines(lines);
    cacheEnabled := false;
    for i := 0 to |flags|
      invariant config == Parse(lines) + Flags(flags[..i])
      invariant cacheEnabled <==> exists j | 0 <= j < i :: EnablesCache(flags[j])
    {
      FlagsSnoc(Parse(lines), flags[..i], flags[i]);
      assert flags[..i + 1] == flags[..i] + [flags[i]];
      if '=' in flags[i] {
        config := config[Key(flags[i]) := Val(flags[i])];
        if EnablesCache(flags[i]) {
          cacheEnabled := true;
        }
      }
    }
    assert flags[..|flags|] == flags;
  }

  method SuffixDirs(value: string, id: string) returns (newValue: string, paths: string)
    ensures newValue == Suffixed(value, id)
    ensures paths == Join(CachePaths(Split(value, ";"), id), ";")
  {
    var dirs := Split(value, ";");
    var entries, dirPaths := [], [];
    for i := 0 to |dirs|
      invariant entries == CacheEntries(dirs, id)[..i] && dirPaths == CachePaths(dirs, id)[..i]
    {
      entries := entries + [CacheEntry(dirs[i], id)];
      dirPaths := dirPaths + [CachePath(dirs[i], id)];
    }
    assert entries == CacheEntries(dirs, id) && dirPaths == CachePaths(dirs, id);
    newValue, paths := Join(entries, ";"), Join(dirPaths, ";");
  }

  function CacheParam(lines: seq<string>, config: map<string, string>, id: string): Option<string> {
    if CACHE_KEY in Parse(lines) && CACHE_KEY in config then Some(Join(CachePaths(Split(config[CACHE_KEY], ";"), id), ";")) else None
  }

  lemma {:induction false} TextSnoc(lines: seq<string>, line: string)
    ensures Text(lines + [line]) == Text(lines) + line + "\n"
  {
  }

  lemma {:induction false} RewrittenSnoc(lines: seq<string>, line: string, config: map<string, string>, id: string)
    ensures Rewritten(lines + [line], config, id) == Rewritten(lines, config, id)
              + [if Assigns(line) && Key(line) !in Parse(lines) && Key(line) in config
                 then Line(Key(line), NewValue(Key(line), config[Key(line)], id)) else line]
  {
  }

  /** One line of the file: what is written for it and what is left of the configuration. */
  method WriteLine(line: string, left: map<string, string>, id: string)
      returns (written: string, left': map<string, string>, cacheDir: Option<string>)
    ensures if Assigns(line) && Key(line) in left
            then && written == Line(Key(line), NewValue(Key(line), left[Key(line)], id))
                 && left' == left - {Key(line)}
                 && cacheDir == if Key(line) == CACHE_KEY then Some(Join(CachePaths(Split(left[CACHE_KEY], ";"), id), ";")) else None
            else written == line && left' == left && cacheDir == None
  {
    written, left', cacheDir := line, left, None;
    if !Assigns(line) {
      return;
    }
    var key := Key(line);
    if key in left {
      var newValue := left[key];
      if key == CACHE_KEY {
        var paths;
        newValue, paths := SuffixDirs(newValue, id);
        cacheDir := Some(paths);
      }
      written := Line(key, newValue);
      left' := left - {key};
    }
  }

  /** State of the writing loop after `lines`. */
  ghost predicate Progress(lines: seq<string>, config: map<string, string>, id: string, text: string, left: map<string, string>, cacheDir: Option<string>) {
    && text == Text(Rewritten(lines, config, id))
    && left == config - Parse(lines).Keys
    && cacheDir == CacheParam(lines, config, id)
  }

  lemma {:induction false} ProgressSame(lines: seq<string>, line: string, config: map<string, string>, id: string,
                     text: string, left: map<string, string>, cacheDir: Option<string>)
    requires Progress(lines, config, id, text, left, cacheDir)
    requires !Assigns(line) || Key(line) !in left
    ensures Progress(lines + [line], config, id, text + line + "\n", left, cacheDir)
  {
    ParseSnoc(lines, line);
    RewrittenSnoc(lines, line, config, id);
    TextSnoc(Rewritten(lines, config, id), line);
    assert Parse(lines + [line]).Keys == Parse(lines).Keys || (Assigns(line) && Key(line) !in config);
    assert config - Parse(lines + [line]).Keys == left;
  }

  lemma {:induction false} ProgressFirst(lines: seq<string>, line: string, config: map<string, string>, id: string,
                      text: string, left: map<string, string>, cacheDir: Option<string>)
    requires Progress(lines, config, id, text, left, cacheDir)
    requires Assigns(line) && Key(line) in left
    ensures var written := Line(Key(line), NewValue(Key(line), left[Key(line)], id));
            var dir := if Key(line) == CACHE_KEY then CacheParam(lines + [line], config, id) else cacheDir;
            Progress(lines + [line], config, id, text + written + "\n", left - {Key(line)}, dir)
  {
    ParseSnoc(lines, line);
    RewrittenSnoc(lines, line, config, id);
    TextSnoc(Rewritten(lines, config, id), Line(Key(line), NewValue(Key(line), left[Key(line)], id)));
    assert config - Parse(lines + [line]).Keys == left - {Key(line)};
  }

  method WriteLines(lines: seq<string>, config: map<string, string>, id: string)
      returns (text: string, left: map<string, string>, cacheDir: Option<string>)
    ensures text == Text(Rewritten(lines, config, id))
    ensures left == config - Parse(lines).Keys
    ensures cacheDir == CacheParam(lines, config, id)
  {
    text, left, cacheDir := "", config, None;
    for i := 0 to |lines|
      invariant Progress(lines[..i], config, id, text, left, cacheDir)
    {
      var line := lines[i];
      assert lines[..i + 1] == lines[..i] + [line];
      var written, left', dir := WriteLine(line, left, id);
      if Assigns(line) && Key(line) in left {
        ProgressFirst(lines[..i], line, config, id, text, left, cacheDir);
        ParseSnoc(lines[..i], line);
      } else {
        ProgressSame(lines[..i], line, config, id, text, left, cacheDir);
      }
      text, left := text + written + "\n", left';
      if dir.Some? {
        cacheDir := dir;
      }
    }
    assert lines[..|lines|] == lines;
  }

  method WriteRemaining(left: map<string, string>) returns (text: string, ghost order: seq<string>)
    ensures forall i | 0 <= i < |order| :: order[i] in left
    ensures forall k | k in left :: k in order
    ensures forall i, j | 0 <= i < j < |order| :: order[i] != order[j]
    ensures text == Text(Remaining(order, left))
  {
    text, order := "", [];
    var todo := left.Keys;
    while todo != {}
      invariant todo <= left.Keys
      invariant forall i | 0 <= i < |order| :: order[i] in left && order[i] !in todo
      invariant forall k | k in left && k !in todo :: k in order
      invariant forall i, j | 0 <= i < j < |order| :: order[i] != order[j]
      invariant text == Text(Remaining(order, left))
      decreases todo
    {
      var key :| key in todo;
      todo := todo - {key};
      TextSnoc(Remaining(order, left), Line(key, left[key]));
      assert (order + [key])[..|order|] == order;
      order := order + [key];
      text := text + Line(key, left[key]) + "\n";
    }
  }

  lemma {:induction false} TextAppend(a: seq<string>, b: seq<string>)
    ensures Text(a + b) == Text(a) + Text(b)
    decreases |b|
  {
    if b == [] {
      assert a + b == a;
    } else {
      var n := |b| - 1;
      TextAppend(a, b[..n]);
      TextSnoc(a + b[..n], b[n]);
      assert a + b == a + b[..n] + [b[n]];
    }
  }

  lemma {:induction false} RemainingOf(order: seq<string>, config: map<string, string>, left: map<string, string>)
    requires forall k | k in left :: k in config && config[k] == left[k]
    requires forall i | 0 <= i < |order| :: order[i] in left
    ensures Remaining(order, left) == Remaining(order, config)
    decreases |order|
  {
    if order != [] {
      RemainingOf(order[..|order| - 1], config, left);
    }
  }

  lemma WholeText(lines: seq<string>, flags: seq<string>, id: string, left: map<string, string>, order: seq<string>)
    requires left == Merged(lines, flags) - Parse(lines).Keys
    requires forall i | 0 <= i < |order| :: order[i] in left
    requires forall k | k in left :: k in order
    requires forall i, j | 0 <= i < j < |order| :: order[i] != order[j]
    ensures var config := Merged(lines, flags);
            && Orders(order, lines, config)
            && Text(Output(lines, flags, id, order)) == Text(Rewritten(lines, config, id)) + Text(Remaining(order, left))
  {
    var config := Merged(lines, flags);
    RemainingOf(order, config, left);
    TextAppend(Rewritten(lines, config, id), Remaining(order, config));
  }

  /** From the text of the file to the new text. */
  method RewriteText(text: string, flags: seq<string>, id: string)
      returns (newText: string, cacheDir: Option<string>, cacheEnabled: bool, ghost order: seq<string>)
    ensures Orders(order, Split(text, "\n"), Merged(Split(text, "\n"), flags))
    ensures newText == NewText(text, flags, id, order)
    ensures cacheDir == CacheParam(Split(text, "\n"), Merged(Split(text, "\n"), flags), id)
    ensures cacheEnabled <==> exists i | 0 <= i < |flags| :: EnablesCache(flags[i])
  {
    var lines := Split(text, "\n");
    var config, head, left, tail;
    config, cacheEnabled := ReadConfig(lines, flags);
    head, left, cacheDir := WriteLines(lines, config, id);
    tail, order := WriteRemaining(left);
    WholeText(lines, flags, id, left, order);
    newText := head + tail;
  }

  class Mounter {
    var mounterParams: map<string, string>

    constructor ()
      ensures mounterParams == map[]
    {
      mounterParams := map[];
    }

    /** applyMountFlags between reading the file and writing it; `mkdirs` are the directories made at the end. */
    method ApplyMountFlags(text: string, flags: seq<string>, id: string)
        returns (newText: string, mkdirs: seq<string>, ghost order: seq<string>)
      modifies this
      ensures Orders(order, Split(text, "\n"), Merged(Split(text, "\n"), flags))
      ensures newText == NewText(text, flags, id, order)
      ensures var dir := CacheParam(Split(text, "\n"), Merged(Split(text, "\n"), flags), id);
              mounterParams == if dir.Some? then old(mounterParams)["cache_dir" := dir.value] else old(mounterParams)
      ensures var made := if "cache_dir" in mounterParams then mounterParams["cache_dir"] else "";
              mkdirs == if exists i | 0 <= i < |flags| :: EnablesCache(flags[i]) then Split(made, ";") else []
    {
      var cacheDir, cacheEnabled;
      newText, cacheDir, cacheEnabled, order := RewriteText(text, flags, id);
      if cacheDir.Some? {
        mounterParams := mounterParams["cache_dir" := cacheDir.value];
      }
      mkdirs := [];
      if cacheEnabled {
        mkdirs := Split(if "cache_dir" in mounterParams then mounterParams["cache_dir"] else "", ";");
      }
    }
  }
}

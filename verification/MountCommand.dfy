/** The command of a mount pod: how NewMountPod builds it and how parseMntPath reads the mount path back. */
module MountCommand {
  import opened Strings

  /** unicode.IsSpace */
  predicate IsSpace(c: char) {
    || '\U{0009}' <= c <= '\U{000D}' || c == ' ' || c == '\U{0085}' || c == '\U{00A0}' || c == '\U{1680}'
    || '\U{2000}' <= c <= '\U{200A}' || c == '\U{2028}' || c == '\U{2029}' || c == '\U{202F}' || c == '\U{205F}' || c == '\U{3000}'
  }

  predicate NoSpace(s: string) {
    forall i | 0 <= i < |s| :: !IsSpace(s[i])
  }

  /** The words of `word + s`, of which `word` has no space. */
  function FieldsAfter(word: string, s: string): seq<string>
    decreases |s|
  {
    if s == [] then
      if word == [] then [] else [word]
    else if IsSpace(s[0]) then
      if word == [] then FieldsAfter([], s[1..]) else [word] + FieldsAfter([], s[1..])
    else FieldsAfter(word + [s[0]], s[1..])
  }

  /** strings.Fields */
  function Fields(s: string): seq<string> {
    FieldsAfter([], s)
  }

  // ---------- building ----------

  const SCRIPT := "/scripts/mountpoint.sh"
  const ROLE := "s3 --role=client --args='"
  const OPTIONS := "-f -o default_permissions -o allow_other -o"
  const FSTYPE := "-o fstype=s3 -o user=dingofs -o"

  function FuseArgs(fsname: string, conf: string, mountPath: string): string {
    OPTIONS + " " + ("fsname=" + fsname) + " " + FSTYPE + " " + ("conf=" + conf) + " " + mountPath
  }

  function Command(fsname: string, conf: string, mountPath: string): string {
    SCRIPT + " " + fsname + " " + ROLE + FuseArgs(fsname, conf, mountPath) + "'"
  }

  datatype Container = Container(command: seq<string>)

  datatype Pod = Pod(name: string, labels: map<string, string>, annotations: map<string, string>, containers: seq<Container>)

  function NewMountPod(name: string, labels: map<string, string>, fsname: string, conf: string, mountPath: string): Pod {
    Pod(name, labels, map[], [Container(["sh", "-c", Command(fsname, conf, mountPath)])])
  }

  /** The pod that podDeletedHandler creates in place of a deleted one. */
  function Recreated(pod: Pod, annotations: map<string, string>): Pod {
    Pod(pod.name, pod.labels, annotations, pod.containers)
  }

  // ---------- parsing ----------

  /** `Crash` is an index out of range. */
  datatype Parsed = Parsed(mountPath: string, volumeId: string) | Invalid | Crash

  const MOUNT_BASE := "/dfs"

  function ParseMntPath(cmd: string): Parsed {
    var args := Fields(LastOf(Split(cmd, "\n")));
    if |args| == 0 then Invalid
    else ParseArgs(if args[0] == "exec" then args[1..] else args)
  }

  function ParseArgs(args: seq<string>): Parsed {
    if |args| == 0 then Crash
    else
      var mountArg := Trim(args[|args| - 1], '\'');
      if !HasPrefix(mountArg, MOUNT_BASE) then Invalid
      else
        var parts := Split(mountArg, "/");
        if |parts| >= 3 then Parsed(mountArg, parts[2])
        else if |args| >= 3 then Invalid else Crash
  }

  function GetMountPathOfPod(pod: Pod): Parsed {
    if |pod.containers| == 0 || |pod.containers[0].command| < 3 then Invalid
    else ParseMntPath(pod.containers[0].command[2])
  }

  // ---------- the last word of the last line ----------

  /** A space ends a word: the words before it and after it do not mix. */
  lemma {:induction false} FieldsAppend(word: string, s: string, t: string)
    ensures FieldsAfter(word, s + " " + t) == FieldsAfter(word, s) + Fields(t)
    decreases |s|
  {
    var whole := s + " " + t;
    if s == [] {
      assert whole[1..] == t;
    } else {
      assert whole[1..] == s[1..] + " " + t;
      if IsSpace(s[0]) {
        FieldsAppend([], s[1..], t);
      } else {
        FieldsAppend(word + [s[0]], s[1..], t);
      }
    }
  }

  lemma {:induction false} OneWord(word: string, s: string)
    requires NoSpace(s) && word + s != []
    ensures FieldsAfter(word, s) == [word + s]
    decreases |s|
  {
    if s == [] {
      assert word + s == word;
    } else {
      assert word + [s[0]] + s[1..] == word + s;
      OneWord(word + [s[0]], s[1..]);
    }
  }

  lemma BreakBefore(s: string, w: string, i: int)
    requires NoSpace(w) && OccursAt(s + " " + w, "\n", i)
    ensures i < |s|
  {
    var cmd := s + " " + w;
    assert cmd[i..i + 1][0] == cmd[i];
    assert forall k | |s| < k < |cmd| :: cmd[k] == w[k - |s| - 1];
  }

  function LastOf(parts: seq<string>): string
    requires parts != []
  {
    parts[|parts| - 1]
  }

  lemma {:induction false} LastOfSplit(s: string)
    ensures var i := Index(s, "\n");
            LastOf(Split(s, "\n")) == if i == -1 then s else LastOf(Split(s[i + 1..], "\n"))
  {
  }

  /** The last line of a text that ends in a space and a word ends in them too. */
  lemma {:induction false} LastLine(s: string, w: string) returns (before: string)
    requires NoSpace(w)
    ensures LastOf(Split(s + " " + w, "\n")) == before + " " + w
    decreases |s|
  {
    var cmd := s + " " + w;
    LastOfSplit(cmd);
    var i := Index(cmd, "\n");
    if i == -1 {
      before := s;
    } else {
      BreakBefore(s, w, i);
      assert cmd[i + 1..] == s[i + 1..] + " " + w;
      before := LastLine(s[i + 1..], w);
    }
  }

  lemma {:induction false} TrimQuoted(w: string)
    requires '\'' !in w
    ensures Trim(w + "'", '\'') == w
  {
    if w != [] {
      assert (w + "'")[0] == w[0];
      assert TrimLeft(w + "'", '\'') == w + "'";
      assert (w + "'")[..|w|] == w;
      assert w[|w| - 1] in w;
      assert TrimRight(w, '\'') == w;
    } else {
      assert w + "'" == "'";
      assert TrimLeft("'", '\'') == TrimLeft("'"[1..], '\'') == "";
    }
  }

  // ---------- round trip ----------

  /** What the parser makes of the last argument. */
  predicate Usable(mountPath: string) {
    HasPrefix(mountPath, MOUNT_BASE) && |Split(mountPath, "/")| >= 3
  }

  /**
  Whatever the names and the configuration file are, even with spaces and line breaks in them, the
  parser returns the mount path and its third component, exactly when the path is usable.
  */
  lemma CommandRoundTrip(fsname: string, conf: string, mountPath: string)
    requires NoSpace(mountPath) && '\'' !in mountPath
    ensures var r := ParseMntPath(Command(fsname, conf, mountPath));
            if Usable(mountPath) then r == Parsed(mountPath, Split(mountPath, "/")[2]) else !r.Parsed?
  {
    var start := CommandStart(fsname, conf);
    var w := mountPath + "'";
    CommandEnds(fsname, conf, mountPath);
    var before := LastLine(start, w);
    LastWord(before, w);
    var words := Fields(before);
    assert w != "exec" by {
      assert w[|w| - 1] == '\'' && "exec"[3] == 'c';
    }
    if words != [] && words[0] == "exec" {
      assert (words + [w])[1..] == words[1..] + [w];
      ParseLast(words[1..], mountPath);
    } else {
      ParseLast(words, mountPath);
    }
  }

  function CommandStart(fsname: string, conf: string): string {
    SCRIPT + " " + fsname + " " + (ROLE + OPTIONS) + " " + ("fsname=" + fsname) + " " + FSTYPE + " " + ("conf=" + conf)
  }

  lemma Regroup(a: string, b: string, c: string, d: string, e: string)
    ensures a + b + (c + d + " " + e) + "'" == a + (b + c) + d + " " + (e + "'")
  {
  }

  lemma CommandEnds(fsname: string, conf: string, mountPath: string)
    ensures Command(fsname, conf, mountPath) == CommandStart(fsname, conf) + " " + (mountPath + "'")
  {
    var a, d := SCRIPT + " " + fsname + " ", " " + ("fsname=" + fsname) + " " + FSTYPE + " " + ("conf=" + conf);
    Regroup(a, ROLE, OPTIONS, d, mountPath);
    assert FuseArgs(fsname, conf, mountPath) == OPTIONS + d + " " + mountPath;
    assert CommandStart(fsname, conf) == a + (ROLE + OPTIONS) + d;
  }

  lemma LastWord(before: string, w: string)
    requires NoSpace(w) && w != []
    ensures Fields(before + " " + w) == Fields(before) + [w]
  {
    FieldsAppend([], before, w);
    OneWord([], w);
    assert [] + w == w;
  }

  lemma ParseLast(words: seq<string>, mountPath: string)
    requires '\'' !in mountPath
    ensures var r := ParseArgs(words + [mountPath + "'"]);
            if Usable(mountPath) then r == Parsed(mountPath, Split(mountPath, "/")[2]) else !r.Parsed?
  {
    TrimQuoted(mountPath);
  }

  /** For a mount path below /dfs the third component is the directory there: the volume id with its suffix. */
  lemma VolumeOfMountPath(fsname: string, conf: string, id: string, rest: string)
    requires NoSpace(id) && '\'' !in id && '/' !in id
    requires NoSpace(rest) && '\'' !in rest && (rest == "" || rest[0] == '/')
    ensures ParseMntPath(Command(fsname, conf, "/dfs/" + id + rest)) == Parsed("/dfs/" + id + rest, id)
  {
    BelowBase(id, rest);
    CommandRoundTrip(fsname, conf, "/dfs/" + id + rest);
  }

  lemma BelowBase(id: string, rest: string)
    requires '/' !in id && (rest == "" || rest[0] == '/')
    ensures Usable("/dfs/" + id + rest) && Split("/dfs/" + id + rest, "/")[2] == id
  {
    assert "/dfs/" + id + rest == "/dfs/" + (id + rest);
    TwoDown(id + rest);
    FirstPart(id, rest);
    assert ("/dfs/" + id + rest)[..4] == MOUNT_BASE;
  }

  lemma TwoDown(inner: string)
    ensures Split("/dfs/" + inner, "/") == ["", "dfs"] + Split(inner, "/")
  {
    var below := "dfs" + "/" + inner;
    SplitAt("", '/', below);
    SplitAt("dfs", '/', inner);
    assert "/dfs/" + inner == "" + "/" + below;
    assert [""] + (["dfs"] + Split(inner, "/")) == ["", "dfs"] + Split(inner, "/");
  }

  lemma FirstPart(id: string, rest: string)
    requires '/' !in id && (rest == "" || rest[0] == '/')
    ensures Split(id + rest, "/")[0] == id
  {
    if rest == "" {
      assert id + rest == id;
      SplitAt(id, '/', "");
    } else {
      assert id + rest == id + "/" + rest[1..];
      SplitAt(id, '/', rest[1..]);
    }
  }

  /** A pod made by NewMountPod, or recreated any number of times after that, gives its mount path back. */
  lemma PodRoundTrip(name: string, labels: map<string, string>, fsname: string, conf: string, id: string, history: seq<map<string, string>>)
    requires NoSpace(id) && '\'' !in id && '/' !in id
    ensures GetMountPathOfPod(RecreatedAll(NewMountPod(name, labels, fsname, conf, "/dfs/" + id), history)) == Parsed("/dfs/" + id, id)
  {
    RecreatedKeeps(NewMountPod(name, labels, fsname, conf, "/dfs/" + id), history);
    VolumeOfMountPath(fsname, conf, id, "");
    assert "/dfs/" + id + "" == "/dfs/" + id;
  }

  function RecreatedAll(pod: Pod, history: seq<map<string, string>>): Pod {
    if history == [] then pod else Recreated(RecreatedAll(pod, history[..|history| - 1]), history[|history| - 1])
  }

  lemma {:induction false} RecreatedKeeps(pod: Pod, history: seq<map<string, string>>)
    ensures RecreatedAll(pod, history).containers == pod.containers && RecreatedAll(pod, history).labels == pod.labels
    decreases |history|
  {
    if history != [] {
      RecreatedKeeps(pod, history[..|history| - 1]);
    }
  }

  // ---------- the other words ----------

  /** Six words or groups of words, joined by spaces. */
  lemma SixGroups(a: string, b: string, c: string, d: string, e: string, f: string)
    requires NoSpace(b) && b != [] && NoSpace(d) && d != [] && NoSpace(f) && f != []
    ensures Fields(a + " " + b + " " + c + " " + d + " " + e + " " + f) == Fields(a) + [b] + Fields(c) + [d] + Fields(e) + [f]
  {
    var w1 := a + " " + b;
    var w2 := w1 + " " + c;
    var w3 := w2 + " " + d;
    var w4 := w3 + " " + e;
    LastWord(a, b);
    FieldsAppend([], w1, c);
    LastWord(w2, d);
    FieldsAppend([], w3, e);
    LastWord(w4, f);
  }

  /** The words of the command: file system name, its option, the configuration option and the mount path, each in its place. */
  lemma CommandFields(fsname: string, conf: string, mountPath: string)
    requires NoSpace(fsname) && NoSpace(conf) && NoSpace(mountPath) && fsname != ""
    ensures Fields(Command(fsname, conf, mountPath))
         == Fields("/scripts/mountpoint.sh") + [fsname] + Fields("s3 --role=client --args='" + "-f -o default_permissions -o allow_other -o")
            + ["fsname=" + fsname] + Fields("-o fstype=s3 -o user=dingofs -o") + ["conf=" + conf] + [mountPath + "'"]
  {
    CommandEnds(fsname, conf, mountPath);
    LastWord(CommandStart(fsname, conf), mountPath + "'");
    SixGroups(SCRIPT, fsname, ROLE + OPTIONS, "fsname=" + fsname, FSTYPE, "conf=" + conf);
  }

  /** A leading exec is no argument: with nothing after it the parser runs out of its list. */
  lemma ExecIsNoArgument()
    ensures ParseMntPath("exec") == Crash
  {
    var w := "exec";
    assert NoSpace(w) && '\n' !in w;
    SplitAt(w, '\n', "");
    OneWord([], w);
    assert [] + w == w;
    assert [w][1..] == [];
  }
}

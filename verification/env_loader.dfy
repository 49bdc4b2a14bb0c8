/** The start-up loader that reads `KEY=VALUE` lines from the `.env` file
    beside the script and writes each pair into the process environment. */
module EnvLoader {
  import opened Basics
  import opened PhpStrings

  /** The process environment: variable name to value. */
  type Env = map<string, string>

  /** One assignment read from a line. Neither part is trimmed on its own:
      `A = B` gives the key "A " and the value " B". */
  datatype Assignment = Assignment(key: string, value: string)

  /** Outcome of loading: the environment after every line, or the index of
      the line whose assignment `putenv` refused (which ends the process). */
  datatype Loaded = Loaded(env: Env) | Rejected(line: nat)

  /** True for a line the loader skips: blank after trimming, or a comment. */
  predicate IsSkipped(line: string) {
    var t := Trim(line);
    t == [] || StartsWith(t, '#')
  }

  /** Reads one line: trim it, skip blanks and comments, split the rest at
      the first `=`; a line without `=` assigns the empty string. */
  function ParseLine(line: string): (r: Option<Assignment>)
    ensures r.None? <==> IsSkipped(line)
    ensures r.Some? ==> '=' !in r.value.key
    ensures r.Some? && '=' in Trim(line) ==> r.value.key + "=" + r.value.value == Trim(line)
    ensures r.Some? && '=' !in Trim(line) ==> r.value == Assignment(Trim(line), "")
  {
    var t := Trim(line);
    if t == [] || StartsWith(t, '#') then None
    else
      var (k, v) := SplitFirst(t, '=');
      Some(Assignment(k, v))
  }

  /** Whether PHP 8's `putenv("$k=$v")` accepts the assignment. `putenv`
      reads its argument as a path-like string, which PHP 8 refuses with a
      `ValueError` when it holds a NUL byte; it then throws a `ValueError`
      itself when the setting starts with `=` (an empty key). */
  predicate Accepted(a: Assignment) {
    a.key != [] && '\0' !in a.key + "=" + a.value
  }

  /** The lines of the file applied to `env` in file order; later lines
      overwrite earlier ones. */
  function Load(env: Env, lines: seq<string>): (r: Loaded)
    decreases |lines|
  {
    if lines == [] then Loaded(env)
    else
      var n := |lines| - 1;
      match Load(env, lines[..n])
      case Rejected(i) => Rejected(i)
      case Loaded(e) =>
        match ParseLine(lines[n])
        case None => Loaded(e)
        case Some(a) => if Accepted(a) then Loaded(e[a.key := a.value]) else Rejected(n)
  }

  /** Reference definition: the value the last line assigning `k` gives it, if any. */
  function LastValue(lines: seq<string>, k: string): (r: Option<string>)
    decreases |lines|
  {
    if lines == [] then None
    else
      var n := |lines| - 1;
      match ParseLine(lines[n])
      case Some(a) => if a.key == k then Some(a.value) else LastValue(lines[..n], k)
      case None => LastValue(lines[..n], k)
  }

  /** True when the line is read as an assignment `putenv` refuses. */
  predicate PutenvRefuses(line: string) {
    var a := ParseLine(line);
    a.Some? && !Accepted(a.value)
  }

  /** Loading fails exactly at the first refused line, and succeeds when there is none. */
  lemma LoadRejectsFirstRefused(env: Env, lines: seq<string>)
    ensures Load(env, lines).Loaded? <==> forall i :: 0 <= i < |lines| ==> !PutenvRefuses(lines[i])
    ensures Load(env, lines).Rejected? ==>
      var n := Load(env, lines).line;
      && n < |lines|
      && PutenvRefuses(lines[n])
      && forall i :: 0 <= i < n ==> !PutenvRefuses(lines[i])
  {
    if Load(env, lines).Loaded? {
      LoadedNoneRefused(env, lines);
    } else {
      RejectedAtFirstRefused(env, lines);
    }
  }

  /** What the last line adds to the load of the lines before it. */
  lemma LoadStep(env: Env, lines: seq<string>)
    requires lines != []
    ensures var n := |lines| - 1;
      var r := Load(env, lines);
      var before := Load(env, lines[..n]);
      && (before.Rejected? ==> r == before)
      && (before.Loaded? && PutenvRefuses(lines[n]) ==> r == Rejected(n))
      && (before.Loaded? && !PutenvRefuses(lines[n]) ==> r.Loaded?)
  {
  }

  lemma {:induction false} LoadedNoneRefused(env: Env, lines: seq<string>)
    requires Load(env, lines).Loaded?
    ensures forall i :: 0 <= i < |lines| ==> !PutenvRefuses(lines[i])
    decreases |lines|
  {
    if lines != [] {
      var n := |lines| - 1;
      var pre := lines[..n];
      LoadStep(env, lines);
      assert Load(env, pre).Loaded?;
      var last := PutenvRefuses(lines[n]);
      assert !last;
      LoadedNoneRefused(env, pre);
      forall i | 0 <= i < |lines| ensures !PutenvRefuses(lines[i]) {
        if i < n {
          assert pre[i] == lines[i];
          assert !PutenvRefuses(pre[i]);
        } else {
          assert i == n;
        }
      }
    }
  }

  lemma {:induction false} RejectedAtFirstRefused(env: Env, lines: seq<string>)
    requires Load(env, lines).Rejected?
    ensures var n := Load(env, lines).line;
      && n < |lines|
      && PutenvRefuses(lines[n])
      && forall i :: 0 <= i < n ==> !PutenvRefuses(lines[i])
    decreases |lines|
  {
    var n := |lines| - 1;
    var pre := lines[..n];
    LoadStep(env, lines);
    if Load(env, pre).Rejected? {
      RejectedAtFirstRefused(env, pre);
      var j := Load(env, pre).line;
      assert PutenvRefuses(pre[j]);
      forall i | 0 <= i < j ensures !PutenvRefuses(lines[i]) {
        assert !PutenvRefuses(pre[i]);
      }
    } else {
      LoadedNoneRefused(env, pre);
      var last := PutenvRefuses(lines[n]);
      assert last;
      forall i | 0 <= i < n ensures !PutenvRefuses(lines[i]) {
        assert !PutenvRefuses(pre[i]);
      }
    }
  }

  /** Last writer wins: after a successful load a key holds the value of the
      last line assigning it, and a key no line names keeps its old value
      (or stays unset). */
  lemma {:induction false} LoadLastWins(env: Env, lines: seq<string>, k: string)
    requires Load(env, lines).Loaded?
    ensures var e := Load(env, lines).env;
      match LastValue(lines, k)
      case Some(v) => k in e && e[k] == v
      case None => (k in e <==> k in env) && (k in env ==> e[k] == env[k])
    decreases |lines|
  {
    if lines != [] {
      var n := |lines| - 1;
      LoadLastWins(env, lines[..n], k);
    }
  }

  /** Round trip: a trimmed line `key=value` whose key holds no `=` and does
      not start a comment is read back as exactly that assignment. */
  lemma ParseLineOfAssignment(a: Assignment)
    requires '=' !in a.key
    requires !StartsWith(a.key, '#')
    requires IsTrimmed(a.key + "=" + a.value)
    ensures ParseLine(a.key + "=" + a.value) == Some(a)
  {
    var line := a.key + "=" + a.value;
    TrimOfTrimmed(line);
    SplitFirstOfJoin(a.key, '=', a.value);
    assert a.key + "=" + a.value == a.key + ['='] + a.value;
  }

  /** A written assignment whose value holds a NUL byte (inside it, as the
      outer trim strips one at either end) is refused, and loading stops
      at that line. */
  lemma NulByteRefused(env: Env, a: Assignment)
    requires '=' !in a.key
    requires !StartsWith(a.key, '#')
    requires IsTrimmed(a.key + "=" + a.value)
    requires '\0' in a.value
    ensures PutenvRefuses(a.key + "=" + a.value)
    ensures Load(env, [a.key + "=" + a.value]) == Rejected(0)
  {
    ParseLineOfAssignment(a);
    var j :| 0 <= j < |a.value| && a.value[j] == '\0';
    assert (a.key + "=" + a.value)[|a.key| + 1 + j] == '\0';
    assert !Accepted(a);
    LoadStep(env, [a.key + "=" + a.value]);
  }

  /** Blanks around an assignment line are dropped; those inside it stay
      with the key or the value. */
  lemma PaddedAssignment(pre: string, a: Assignment, post: string)
    requires AllBlank(pre) && AllBlank(post)
    requires '=' !in a.key
    requires !StartsWith(a.key, '#')
    requires IsTrimmed(a.key + "=" + a.value)
    ensures ParseLine(pre + (a.key + "=" + a.value) + post) == Some(a)
  {
    var line := a.key + "=" + a.value;
    TrimIgnoresPadding(pre, line, post);
    TrimOfTrimmed(line);
    ParseLineOfAssignment(a);
  }

  /** The key and the value keep the spaces around `=`. */
  lemma SpacesAroundEqualsAreKept()
    ensures ParseLine("  A = B \n") == Some(Assignment("A ", " B"))
  {
    var a := Assignment("A ", " B");
    assert a.key + "=" + a.value == "A = B";
    assert "  " + "A = B" + " \n" == "  A = B \n" by {
    }
    PaddedAssignment("  ", a, " \n");
  }
}

// The pure parts of configuration reading (config/parse.rs): the excerpt of
// the offending YAML shown when a value does not deserialize, the choice of
// YAML files, and joining a plant file with its separate skills file.
module ConfigParse {
  import opened Wrappers
  import opened Seqs
  import R = RawConfigData

  /** The widest an excerpt line is kept before it is cut. */
  const MaxLineWidth: nat := 90

  /**
   * One line of the excerpt, cut to its first 90 characters with "..."
   * added exactly when something was cut.
   */
  function TruncateLine(l: string): (r: string)
    ensures |l| <= MaxLineWidth ==> r == l
    ensures |l| > MaxLineWidth ==> |r| == MaxLineWidth + 3 && r[..MaxLineWidth] == l[..MaxLineWidth] && r[MaxLineWidth..] == "..."
  {
    if |l| > MaxLineWidth then l[..MaxLineWidth] + "..." else l
  }

  /** An excerpt line is never longer than 93 characters and always starts as the original line does. */
  lemma TruncateLineBounds(l: string)
    ensures |TruncateLine(l)| <= MaxLineWidth + 3
    ensures var n := if |l| < MaxLineWidth then |l| else MaxLineWidth;
      TruncateLine(l)[..n] == l[..n]
  {
  }

  function Spaces(n: nat): (r: string)
    ensures |r| == n && forall i :: 0 <= i < n ==> r[i] == ' '
  {
    if n == 0 then "" else " " + Spaces(n - 1)
  }

  /** `{:>3}`: the number right-aligned in a field at least 3 wide. */
  function PadLeft3(n: nat): (r: string)
    ensures var d := NatToString(n);
      |r| == (if |d| < 3 then 3 else |d|)
      && r[|r| - |d|..] == d
      && forall i :: 0 <= i < |r| - |d| ==> r[i] == ' '
  {
    var d := NatToString(n);
    if |d| < 3 then Spaces(3 - |d|) + d else d
  }

  /** One formatted excerpt line: its 0-based number, a bar, then the cut line. */
  function ExcerptLine(i: nat, l: string): (r: string)
    ensures |PadLeft3(i)| + 3 <= |r|
    ensures r[..|PadLeft3(i)|] == PadLeft3(i)
    ensures r[|PadLeft3(i)|..|PadLeft3(i)| + 3] == " | "
    ensures r[|PadLeft3(i)| + 3..] == TruncateLine(l)
  {
    PadLeft3(i) + " | " + TruncateLine(l)
  }

  /** `usize::saturating_sub`. */
  function SaturatingSub(a: nat, b: nat): (r: nat)
    ensures a >= b ==> r + b == a
    ensures a < b ==> r == 0
  {
    if a >= b then a - b else 0
  }

  /** The line the error is reported on, 0 when it has no location. */
  function ErrLine(location: Option<nat>): (r: nat)
    ensures location.None? ==> r == 0
    ensures location.Some? ==> r == location.value
  {
    match location
    case None => 0
    case Some(l) => l
  }

  /** The first line of the excerpt: ten lines before the error line, or the top. */
  function ExcerptStart(errLine: nat): nat
  {
    SaturatingSub(errLine, 10)
  }

  /**
   * The excerpt lines: every line numbered and cut, from ten lines before the
   * error line (or the top) on, at most twenty of them.
   */
  function Excerpt(lines: seq<string>, errLine: nat): (r: seq<string>)
    ensures var start := ExcerptStart(errLine);
      && (start >= |lines| ==> r == [])
      && (start < |lines| ==> |r| == if |lines| - start < 20 then |lines| - start else 20)
      && forall j :: 0 <= j < |r| ==> start + j < |lines| && r[j] == ExcerptLine(start + j, lines[start + j])
  {
    var formatted := seq(|lines|, i requires 0 <= i < |lines| => ExcerptLine(i, lines[i]));
    var start := ExcerptStart(errLine);
    var skipped := if start < |formatted| then formatted[start..] else [];
    if |skipped| <= 20 then skipped else skipped[..20]
  }

  /** The excerpt always shows the line the error is on, when that line exists. */
  lemma ExcerptShowsErrLine(lines: seq<string>, errLine: nat)
    requires errLine < |lines|
    ensures var r := Excerpt(lines, errLine);
      exists j :: 0 <= j < |r| && r[j] == ExcerptLine(errLine, lines[errLine])
  {
    var r := Excerpt(lines, errLine);
    var start := ExcerptStart(errLine);
    var j := errLine - start;
    assert j <= 10 && start < |lines|;
    assert j < |r|;
    assert r[j] == ExcerptLine(start + j, lines[start + j]);
  }

  /** A YAML value, as far as the error message looks at it: a string or something else. */
  datatype YamlValue = Str(s: string) | Other

  function AsStr(v: YamlValue): Option<string>
  {
    match v
    case Str(s) => Some(s)
    case Other => None
  }

  /**
   * The name shown in the error: the `name` field if present, else the
   * `title` field, in either case only when it is a string.
   */
  function NameOf(name: Option<YamlValue>, title: Option<YamlValue>): (r: Option<string>)
    ensures name.Some? ==> r == AsStr(name.value)
    ensures name.None? && title.Some? ==> r == AsStr(title.value)
    ensures name.None? && title.None? ==> r.None?
  {
    match (if name.Some? then name else title)
    case None => None
    case Some(v) => AsStr(v)
  }

  /** A `name` that is not a string hides a string `title`: no name is shown. */
  lemma NonStringNameHidesTitle(title: string)
    ensures NameOf(Some(Other), Some(Str(title))) == None
  {
  }

  /** `{:?}` of the name (escaping inside the string is not modelled). */
  function DebugName(name: Option<string>): (r: string)
    ensures name.None? ==> r == "None"
    ensures name.Some? ==> && |r| == |name.value| + 8 && r[..6] == "Some(\""
                           && r[6..|r| - 2] == name.value && r[|r| - 2..] == "\")"
  {
    match name
    case None => "None"
    case Some(s) => "Some(\"" + s + "\")"
  }

  /** Different names are shown differently, and no name is shown as `None`. */
  lemma DebugNameInjective(a: Option<string>, b: Option<string>)
    ensures DebugName(a) == DebugName(b) ==> a == b
  {
    if DebugName(a) == DebugName(b) && a.Some? && b.Some? {
      var r := DebugName(a);
      assert a.value == r[6..|r| - 2] == b.value;
    }
  }

  /** The first line of the message: the name, as `{:?}` shows it. */
  function NameLine(name: Option<string>): string
  {
    NameLabel + DebugName(name) + "\n"
  }

  const NameLabel := "\nname: "
  const ErrLabel := "\nerr: "

  /** The last line of the message: the deserializer's error. */
  function ErrTail(err: string): string
  {
    ErrLabel + err + "\n"
  }

  /**
   * The message `parse_merged` returns when the merged value does not
   * deserialize: the name line, then the excerpt's lines joined by newlines,
   * then the error line.
   */
  function ParseErrorMessage(name: Option<string>, lines: seq<string>, location: Option<nat>, err: string): (r: string)
    ensures var head, body, tail := NameLine(name), Join(Excerpt(lines, ErrLine(location)), "\n"), ErrTail(err);
      && |r| == |head| + |body| + |tail|
      && r[..|head|] == head && r[|head|..|head| + |body|] == body && r[|head| + |body|..] == tail
  {
    var head, body, tail := NameLine(name), Join(Excerpt(lines, ErrLine(location)), "\n"), ErrTail(err);
    ThreeParts(head, body, tail);
    head + body + tail
  }

  /** The message shows the numbered line the error is on, when that line exists. */
  lemma ParseErrorShowsErrLine(name: Option<string>, lines: seq<string>, location: Option<nat>, err: string)
    requires ErrLine(location) < |lines|
    ensures Contains(ParseErrorMessage(name, lines, location, err), ExcerptLine(ErrLine(location), lines[ErrLine(location)]))
  {
    var errLine := ErrLine(location);
    var r := Excerpt(lines, errLine);
    ExcerptShowsErrLine(lines, errLine);
    var j :| 0 <= j < |r| && r[j] == ExcerptLine(errLine, lines[errLine]);
    JoinContains(r, "\n", j);
    ContainsWithin(NameLine(name), Join(r, "\n"), ErrTail(err), r[j]);
  }

  /** A path found under a configuration folder: its name and extension. */
  datatype Path = Path(name: string, extension: Option<string>)

  predicate IsYaml(p: Path)
  {
    p.extension == Some("yml") || p.extension == Some("yaml")
  }

  /** `yml_files`: of the paths walked, those whose extension is `yml` or `yaml`. */
  function YmlFiles(paths: seq<Path>): (r: seq<Path>)
    ensures forall p :: p in r <==> p in paths && (p.extension == Some("yml") || p.extension == Some("yaml"))
  {
    Filter(paths, IsYaml)
  }

  /** The skills file looked for beside a plant file with stem `stem`. */
  function SkillsFileName(stem: string): (f: string)
    ensures |f| == |stem| + 11 && f[..|stem|] == stem && f[|stem|..] == "_skills.yml"
  {
    stem + "_skills.yml"
  }

  /** The message `read_plants` stops with for a plant file with skills of its own. */
  const InlineSkillsError := "plant skills must be defined in external file"

  /**
   * The last step of `read_plants` for one plant file: a plant that already
   * defines skills is rejected; otherwise its skills become those read from
   * the skills file, noted as coming from that file, and the plant is noted
   * as coming from its own file.
   */
  function AttachSkills(plant: R.RawPlantConfig, skills: seq<R.RawSkill>, skillsFile: string, plantFile: string): (r: Result<R.FromFile<R.RawPlantConfig>, string>)
    ensures r.Err? <==> |plant.skills.inner| > 0
    ensures r.Err? ==> r.error == InlineSkillsError
    ensures r.Ok? ==>
      && r.value.file == plantFile
      && r.value.inner.skills == R.FromFile(skills, skillsFile)
      && r.value.inner.(skills := plant.skills) == plant
  {
    if |plant.skills.inner| > 0 then Err(InlineSkillsError)
    else Ok(R.FromFile(plant.(skills := R.FromFile(skills, skillsFile)), plantFile))
  }
}

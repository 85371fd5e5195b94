/**
 * The prefix put in front of a log line: the level's label in brackets,
 * coloured, then alignment padding, then the group indentation.
 */
module MessagePrefix {
  import opened StringRepeat
  import opened LogLevels

  /** The five terminal colours the levels are shown in. */
  datatype Color = Magenta | Blue | Green | Yellow | Red

  /**
   * The colouring capability: one string transform per colour. The
   * transforms come from a terminal-styling library and are left
   * uninterpreted; every statement below holds whatever they do.
   */
  datatype Styler = Styler(
    magenta: string -> string,
    blue: string -> string,
    green: string -> string,
    yellow: string -> string,
    red: string -> string)
  {
    function Apply(color: Color, s: string): string {
      match color
      case Magenta => magenta(s)
      case Blue => blue(s)
      case Green => green(s)
      case Yellow => yellow(s)
      case Red => red(s)
    }
  }

  /** How one level is displayed: the colour of its label, and the label text itself. */
  datatype LevelInfo = LevelInfo(style: Color, text: string)

  /** The display table, indexed by rank. */
  const Infos: seq<LevelInfo> := [
    LevelInfo(Magenta, "debug"),
    LevelInfo(Blue, "trace"),
    LevelInfo(Green, "info"),
    LevelInfo(Yellow, "warn"),
    LevelInfo(Red, "error")
  ]

  /**
   * The colour each level is shown in, keyed by the level itself rather than
   * by rank. It is a second statement of the colour column of `Infos`;
   * `TableLockStep` checks that the two agree, and the per-level prefix
   * lemmas below pin each colour to its level.
   */
  function ColorOf(level: LogLevel): Color {
    match level
    case Debug => Magenta
    case Trace => Blue
    case Info => Green
    case Warn => Yellow
    case Error => Red
  }

  /**
   * The table is in lock-step with the ranks: the entry at a level's rank
   * exists and holds that level's colour and its own tag as label.
   */
  lemma TableLockStep(level: LogLevel)
    ensures LevelToInt(level) < |Infos|
    ensures Infos[LevelToInt(level)] == LevelInfo(ColorOf(level), Tag(level))
  {
  }

  /** Every table entry belongs to exactly one level: labels and colours are pairwise distinct. */
  lemma TableEntriesDistinct(i: nat, j: nat)
    requires i < |Infos| && j < |Infos| && i != j
    ensures Infos[i].text != Infos[j].text
    ensures Infos[i].style != Infos[j].style
  {
  }

  /** The alignment padding for a rank: one space for the two four-letter labels. */
  function Padding(rank: nat): string {
    if rank == 2 || rank == 3 then " " else ""
  }

  /** The indentation unit for one level of grouping. */
  const Indent: string := "    "

  /**
   * The prefix for a log line at `level`, nested `groupDepth` groups deep.
   * The colouring transforms are passed in as `styler`.
   */
  function RenderMessagePrefix(styler: Styler, level: LogLevel, groupDepth: nat := 0): string
  {
    var i := LevelToInt(level);
    var padding := Padding(i);
    styler.Apply(Infos[i].style, "[" + Infos[i].text + "]") + padding + Repeat(Indent, groupDepth)
  }

  /** Padding is a single space exactly for `info` and `warn`, and empty otherwise. */
  lemma PaddingOnlyInfoWarn(level: LogLevel)
    ensures Padding(LevelToInt(level)) == (if level == Info || level == Warn then " " else "")
  {
  }

  /**
   * The prefix is the styled, bracketed tag of the level, followed by the
   * padding for info and warn, followed by `groupDepth` indentation units.
   * The style is applied to the bracketed label only.
   */
  lemma PrefixStructure(styler: Styler, level: LogLevel, groupDepth: nat)
    ensures RenderMessagePrefix(styler, level, groupDepth)
         == styler.Apply(ColorOf(level), "[" + Tag(level) + "]")
            + (if level == Info || level == Warn then " " else "")
            + Repeat(Indent, groupDepth)
  {
  }

  /**
   * After the styled label the prefix holds only spaces: one for info and
   * warn, plus four per group level.
   */
  lemma SuffixIsSpaces(styler: Styler, level: LogLevel, groupDepth: nat)
    ensures var r := RenderMessagePrefix(styler, level, groupDepth);
            var head := styler.Apply(ColorOf(level), "[" + Tag(level) + "]");
            && |head| <= |r|
            && r[..|head|] == head
            && (forall k :: |head| <= k < |r| ==> r[k] == ' ')
            && |r| - |head| == (if level == Info || level == Warn then 1 else 0) + 4 * groupDepth
  {
    PrefixStructure(styler, level, groupDepth);
    RepeatUniform(Indent, ' ', groupDepth);
    var r := RenderMessagePrefix(styler, level, groupDepth);
    var head := styler.Apply(ColorOf(level), "[" + Tag(level) + "]");
    var pad := if level == Info || level == Warn then " " else "";
    var tail := Repeat(Indent, groupDepth);
    assert r == head + (pad + tail);
    forall k | |head| <= k < |r|
      ensures r[k] == ' '
    {
      assert r[k] == (pad + tail)[k - |head|];
    }
  }

  /** Omitting the group depth is the same as passing 0: the prefix then has no indentation. */
  lemma DefaultDepthIsZero(styler: Styler, level: LogLevel)
    ensures RenderMessagePrefix(styler, level) == RenderMessagePrefix(styler, level, 0)
    ensures RenderMessagePrefix(styler, level)
         == styler.Apply(ColorOf(level), "[" + Tag(level) + "]")
            + (if level == Info || level == Warn then " " else "")
  {
    PrefixStructure(styler, level, 0);
  }

  /** One more group level appends exactly one indentation unit and changes nothing else. */
  lemma DeeperGroup(styler: Styler, level: LogLevel, groupDepth: nat)
    ensures RenderMessagePrefix(styler, level, groupDepth + 1)
         == RenderMessagePrefix(styler, level, groupDepth) + Indent
  {
    RepeatSnoc(Indent, groupDepth);
    var head := styler.Apply(Infos[LevelToInt(level)].style, "[" + Infos[LevelToInt(level)].text + "]")
                + Padding(LevelToInt(level));
    assert RenderMessagePrefix(styler, level, groupDepth + 1) == head + (Repeat(Indent, groupDepth) + Indent);
  }

  /** The `debug` prefix is the magenta `[debug]` with no padding and no indentation. */
  lemma DebugPrefix(styler: Styler)
    ensures RenderMessagePrefix(styler, Debug) == styler.magenta("[debug]")
  {
    DefaultDepthIsZero(styler, Debug);
    assert "[" + Tag(Debug) + "]" == "[debug]";
  }

  /** The `trace` prefix one group deep is the blue `[trace]` followed by one indentation unit. */
  lemma TracePrefix(styler: Styler)
    ensures RenderMessagePrefix(styler, Trace, 1) == styler.blue("[trace]") + "    "
  {
    PrefixStructure(styler, Trace, 1);
    assert "[" + Tag(Trace) + "]" == "[trace]";
    assert Repeat(Indent, 1) == Indent + "";
  }

  /** The `error` prefix is the red `[error]` with no padding and no indentation. */
  lemma ErrorPrefix(styler: Styler)
    ensures RenderMessagePrefix(styler, Error) == styler.red("[error]")
  {
    DefaultDepthIsZero(styler, Error);
    assert "[" + Tag(Error) + "]" == "[error]";
  }

  /** The `info` prefix is the green `[info]` followed by one padding space. */
  lemma InfoPrefix(styler: Styler)
    ensures RenderMessagePrefix(styler, Info) == styler.green("[info]") + " "
  {
    DefaultDepthIsZero(styler, Info);
    assert "[" + Tag(Info) + "]" == "[info]";
  }

  /** The `warn` prefix two groups deep ends in the padding space and eight indentation spaces. */
  lemma WarnTwoGroupsDeep(styler: Styler)
    ensures RenderMessagePrefix(styler, Warn, 2) == styler.yellow("[warn]") + " " + "        "
  {
    PrefixStructure(styler, Warn, 2);
    assert "[" + Tag(Warn) + "]" == "[warn]";
    assert Repeat(Indent, 2) == Indent + (Indent + "");
  }
}

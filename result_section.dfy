/** A result section (widget/src/components/sections/ResultSection.tsx):
    a list of regular lines, whose content is parsed, and conditional
    lines, whose rule is evaluated; sections saved in the older format carry
    one `content` string instead of lines. */
module ResultSection {
  import opened Wrappers
  import opened Runtime
  import opened ConditionalLogic

  /** One entry of `section.lines`.  A regular line uses `content`, a
      conditional line its `blocks`; an absent `content` reads as `""`. */
  datatype ResultLine = ResultLine(
    id: string,
    lineType: Option<string>,
    content: string,
    blocks: Option<seq<ConditionalBlock>>
  )

  datatype ResultSectionData = ResultSectionData(
    id: string,
    name: string,
    lines: Option<seq<ResultLine>>,
    content: Option<string>   // legacy format
  )

  /** What one line renders as. */
  datatype RenderedLine =
    | RegularText(text: string)
    | ConditionalBox(message: string, styleClass: string)

  /** `getConditionalStyleClasses(style)`: the three marked styles have
      their own colours and everything else, `undefined` included, is gray. */
  function GetConditionalStyleClasses(style: Option<string>): (r: string)
    ensures style == Some("success") ==> r == "bg-green-100 border-green-300 text-green-800"
    ensures style == Some("warning") ==> r == "bg-yellow-100 border-yellow-300 text-yellow-800"
    ensures style == Some("error") ==> r == "bg-red-100 border-red-300 text-red-800"
    ensures !(style.Some? && style.value in {"success", "warning", "error"}) ==>
      r == "bg-gray-100 border-gray-300 text-gray-800"
  {
    if style == Some("success") then "bg-green-100 border-green-300 text-green-800"
    else if style == Some("warning") then "bg-yellow-100 border-yellow-300 text-yellow-800"
    else if style == Some("error") then "bg-red-100 border-red-300 text-red-800"
    else "bg-gray-100 border-gray-300 text-gray-800"
  }

  /** The gray box marks exactly the lines whose style is none of the
      three marked ones. */
  lemma GrayExactlyForUnmarkedStyles(style: Option<string>)
    ensures GetConditionalStyleClasses(style) == "bg-gray-100 border-gray-300 text-gray-800" <==>
      !(style.Some? && style.value in {"success", "warning", "error"})
  {
  }

  /** The section's `lines`: the `lines` list whenever it is present (even
      when empty), else a single regular line with id `'legacy'` holding a
      non-empty legacy `content`, else no lines. */
  function SectionLines(section: ResultSectionData): (ls: seq<ResultLine>)
    ensures section.lines.Some? ==> ls == section.lines.value
    ensures section.lines.None? && Truthy(section.content) ==>
      ls == [ResultLine("legacy", Some("regular"), section.content.value, None)]
    ensures section.lines.None? && !Truthy(section.content) ==> ls == []
  {
    if section.lines.Some? then section.lines.value
    else if Truthy(section.content) then [ResultLine("legacy", Some("regular"), section.content.value, None)]
    else []
  }

  /** `line.type || 'regular'`. */
  function LineKind(line: ResultLine): (k: string)
    ensures Truthy(line.lineType) ==> k == line.lineType.value
    ensures !Truthy(line.lineType) ==> k == "regular"
  {
    if Truthy(line.lineType) then line.lineType.value else "regular"
  }

  /** What the `lines.map` callback renders for one line; `None` is `null`. */
  function RenderLine(line: ResultLine, env: Env, parse: string -> string): Option<RenderedLine> {
    var kind := LineKind(line);
    if kind == "regular" then Some(RegularText(parse(line.content)))
    else if kind == "conditional" then
      match LineResult(ConditionalLine(line.blocks), env, parse)
      case None => None
      case Some(result) =>
        if result.message == "" then None
        else Some(ConditionalBox(result.message, GetConditionalStyleClasses(result.style)))
    else None
  }

  /** The rendered lines of a section, in order. */
  function RenderSection(section: ResultSectionData, env: Env, parse: string -> string): (r: seq<Option<RenderedLine>>)
    ensures |r| == |SectionLines(section)|
    ensures forall i :: 0 <= i < |r| ==> r[i] == RenderLine(SectionLines(section)[i], env, parse)
  {
    var ls := SectionLines(section);
    seq(|ls|, i requires 0 <= i < |ls| => RenderLine(ls[i], env, parse))
  }

  /** A line without a type, or with an empty one, renders as a regular line. */
  lemma MissingTypeIsRegular(line: ResultLine, env: Env, parse: string -> string)
    requires !Truthy(line.lineType)
    ensures RenderLine(line, env, parse) == Some(RegularText(parse(line.content)))
    ensures RenderLine(line, env, parse) == RenderLine(line.(lineType := Some("regular")), env, parse)
  {
  }

  /** A line of any type other than regular or conditional renders nothing. */
  lemma UnknownTypeRendersNothing(line: ResultLine, env: Env, parse: string -> string)
    requires Truthy(line.lineType) && line.lineType.value != "regular" && line.lineType.value != "conditional"
    ensures RenderLine(line, env, parse).None?
  {
  }

  /** A conditional line renders nothing exactly when its rule evaluates
      to `null` or to an empty message; otherwise it shows that message in
      the box of the rule's style. */
  lemma ConditionalSkipRule(line: ResultLine, env: Env, parse: string -> string)
    requires line.lineType == Some("conditional")
    ensures var result := LineResult(ConditionalLine(line.blocks), env, parse);
      (RenderLine(line, env, parse).None? <==> result.None? || result.value.message == "") &&
      (RenderLine(line, env, parse).Some? ==>
        RenderLine(line, env, parse) ==
          Some(ConditionalBox(result.value.message, GetConditionalStyleClasses(result.value.style))))
  {
  }

  /** A section in the legacy format renders as its content parsed on a
      single regular line, and as nothing when that content is missing or
      empty. */
  lemma LegacyContentSection(section: ResultSectionData, env: Env, parse: string -> string)
    requires section.lines.None?
    ensures Truthy(section.content) ==> RenderSection(section, env, parse) == [Some(RegularText(parse(section.content.value)))]
    ensures !Truthy(section.content) ==> RenderSection(section, env, parse) == []
  {
  }

  /** An explicit `lines` list wins over legacy `content`, even an empty list. */
  lemma LinesOverrideContent(section: ResultSectionData, legacy: Option<string>, env: Env, parse: string -> string)
    requires section.lines.Some?
    ensures RenderSection(section.(content := legacy), env, parse) == RenderSection(section, env, parse)
  {
  }
}

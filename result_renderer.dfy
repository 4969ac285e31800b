/** The result components (widget/src/components/renderers/ResultRenderer.tsx):
    `RegularResult` shows already-parsed content, and `ConditionalResult`
    picks the block to show with its own scan over the blocks, asking
    `evaluateConditionalLine` about one block at a time. */
module ResultRenderer {
  import opened Wrappers
  import opened Runtime
  import opened StyleHelpers
  import opened ConditionalLogic

  /** What a result component puts on the screen: the text and the three
      classes of its box. */
  datatype ResultView = ResultView(text: string, styleClass: string, fontSizeClass: string, textAlignClass: string)

  /** The renderers' inline font-size map.  The `fontSize = 'medium'`
      parameter default applies only to an undefined size, so an empty
      size is looked up as it is; it still agrees with `getFontSizeClass`. */
  function FontSizeClass(fontSize: Option<string>): (r: string)
    ensures r == GetFontSizeClass(fontSize)
    ensures fontSize.None? ==> r == "text-base"
  {
    var key := fontSize.GetOr("medium");
    if key in FontSizeClasses then FontSizeClasses[key] else "text-base"
  }

  /** The renderers' inline alignment map, with the `textAlign = 'left'`
      parameter default; it agrees with `getTextAlignClass`. */
  function TextAlignClass(textAlign: Option<string>): (r: string)
    ensures r == GetTextAlignClass(textAlign)
    ensures textAlign.None? ==> r == "text-left"
  {
    var key := textAlign.GetOr("left");
    if key in TextAlignClasses then TextAlignClasses[key] else "text-left"
  }

  /** `RegularResult`: the parsed content in a box of the given style class. */
  function RegularResult(parsedContent: string, styleClass: string, fontSize: Option<string>, textAlign: Option<string>): (r: ResultView)
    ensures r.text == parsedContent && r.styleClass == styleClass
    ensures r.fontSizeClass == GetFontSizeClass(fontSize) && r.textAlignClass == GetTextAlignClass(textAlign)
  {
    ResultView(parsedContent, styleClass, FontSizeClass(fontSize), TextAlignClass(textAlign))
  }

  /** `getResultStyleClass(style || 'default')`. */
  function BlockStyleClass(style: Option<string>): (r: string)
    ensures Truthy(style) ==> r == GetResultStyleClass(style.value)
    ensures !Truthy(style) ==> r == GetResultStyleClass("default")
  {
    GetResultStyleClass(if Truthy(style) then style.value else "default")
  }

  /** What `ConditionalResult` renders once `displayedBlock` is chosen. */
  function ShowBlock(block: ConditionalBlock, parse: string -> string, fontSize: Option<string>, textAlign: Option<string>): ResultView {
    ResultView(parse(block.message), BlockStyleClass(block.style), FontSizeClass(fontSize), TextAlignClass(textAlign))
  }

  /** The view `ConditionalResult` renders: the first matching block, or
      nothing. */
  function ConditionalView(blocks: seq<ConditionalBlock>, env: Env, parse: string -> string,
                           fontSize: Option<string>, textAlign: Option<string>): Option<ResultView> {
    match FirstMatch(blocks, env)
    case None => None
    case Some(i) => Some(ShowBlock(blocks[i], parse, fontSize, textAlign))
  }

  /** Asked about a single block, `evaluateConditionalLine` answers
      non-null exactly when that block matches. */
  lemma SingleBlockLine(block: ConditionalBlock, env: Env, parse: string -> string)
    ensures LineResult(ConditionalLine(Some([block])), env, parse).Some? <==> BlockMatches(block, env)
  {
    assert [block][0] == block;
    if !BlockMatches(block, env) {
      assert FirstMatch([block][1..], env) == None;
    }
  }

  /** `ConditionalResult` shows the very block `evaluateConditionalLine`
      selects on the whole list: it renders nothing exactly when the line
      evaluates to `null`, and otherwise shows the line's message with the
      line's style. */
  lemma ConditionalViewMatchesLine(blocks: seq<ConditionalBlock>, env: Env, parse: string -> string,
                                   fontSize: Option<string>, textAlign: Option<string>)
    ensures ConditionalView(blocks, env, parse, fontSize, textAlign).None? <==>
      LineResult(ConditionalLine(Some(blocks)), env, parse).None?
    ensures LineResult(ConditionalLine(Some(blocks)), env, parse).Some? ==>
      var line := LineResult(ConditionalLine(Some(blocks)), env, parse).value;
      ConditionalView(blocks, env, parse, fontSize, textAlign) ==
        Some(ResultView(line.message, BlockStyleClass(line.style), GetFontSizeClass(fontSize), GetTextAlignClass(textAlign)))
  {
  }

  /** `ConditionalResult`: scans the blocks, stopping at the first `else`
      block or the first block whose single-block line evaluates non-null,
      and renders that block. */
  method ConditionalResult(blocks: seq<ConditionalBlock>, env: Env, parse: string -> string,
                           fontSize: Option<string>, textAlign: Option<string>)
    returns (r: Option<ResultView>)
    ensures r == ConditionalView(blocks, env, parse, fontSize, textAlign)
  {
    var displayedBlock: Option<ConditionalBlock> := None;
    var i := 0;
    while i < |blocks|
      invariant 0 <= i <= |blocks|
      invariant forall j :: 0 <= j < i ==> !BlockMatches(blocks[j], env)
      invariant displayedBlock.None?
    {
      var block := blocks[i];
      if block.blockType == Else {
        displayedBlock := Some(block);
        break;
      }
      var result := EvaluateConditionalLine(ConditionalLine(Some([block])), env, parse);
      SingleBlockLine(block, env, parse);
      if result.Some? {
        displayedBlock := Some(block);
        break;
      }
      i := i + 1;
    }
    if displayedBlock.None? {
      return None;
    }
    assert BlockMatches(blocks[i], env);
    assert FirstMatch(blocks, env) == Some(i);
    var block := displayedBlock.value;
    return Some(ShowBlock(block, parse, fontSize, textAlign));
  }
}

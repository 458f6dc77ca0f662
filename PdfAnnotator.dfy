/**
 * The viewer around the annotation overlay: which tool is active, which page
 * is shown, single or two-up layout, and the text properties shared between
 * the toolbar and the selected text object.
 */
module PdfAnnotator {
  import opened JsValues
  import opened Scene

  /** The text colour the viewer falls back to (the theme green). */
  const ThemeColor: string := "#00AA00"

  /** The viewer's layout: one page, or two pages side by side. */
  datatype ViewMode = Single | TwoUp

  /** The text properties the viewer starts with. */
  const DefaultTextProps: TextProps := TextProps(18, "Arial", false, false, ThemeColor, "", false)

  // ---------------------------------------------------------------------------
  // Pure decisions

  /** The tool after pressing the button of `tool`: pressing the active tool turns it off. */
  function Toggled(current: Option<Tool>, tool: Tool): (r: Option<Tool>)
    ensures r == None <==> current == Some(tool)
    ensures r != None ==> r == Some(tool)
  {
    if current == Some(tool) then None else Some(tool)
  }

  /** Pressing the same tool button twice restores the tool that was active before, if it was that tool or none. */
  lemma ToggleTwice(current: Option<Tool>, tool: Tool)
    requires current == None || current == Some(tool)
    ensures Toggled(Toggled(current, tool), tool) == current
  {
  }

  /** The page after "previous": one back, but never before the first page. */
  function PrevPage(pageNum: int): (p: int)
    ensures pageNum > 1 ==> p == pageNum - 1
    ensures pageNum <= 1 ==> p == pageNum
  {
    if pageNum > 1 then pageNum - 1 else pageNum
  }

  /** The page after "next": one forward, but never past the last page. */
  function NextPage(pageNum: int, numPages: int): (p: int)
    ensures pageNum < numPages ==> p == pageNum + 1
    ensures pageNum >= numPages ==> p == pageNum
  {
    if pageNum < numPages then pageNum + 1 else pageNum
  }

  /** A page inside the document stays inside it whichever way the viewer navigates. */
  lemma NavigationStaysInRange(pageNum: int, numPages: int)
    requires 1 <= pageNum <= numPages
    ensures 1 <= PrevPage(pageNum) <= numPages
    ensures 1 <= NextPage(pageNum, numPages) <= numPages
    ensures PrevPage(pageNum) == pageNum <==> pageNum == 1
    ensures NextPage(pageNum, numPages) == pageNum <==> pageNum == numPages
  {
  }

  /** "Previous" then "next" comes back to the page it started from, unless it started on page 1. */
  lemma PrevThenNext(pageNum: int, numPages: int)
    requires 1 < pageNum <= numPages
    ensures NextPage(PrevPage(pageNum), numPages) == pageNum
  {
  }

  /** "Next" then "previous" comes back to the page it started from, unless it started on the last page. */
  lemma NextThenPrev(pageNum: int, numPages: int)
    requires 1 <= pageNum < numPages
    ensures PrevPage(NextPage(pageNum, numPages)) == pageNum
  {
  }

  /** The view-mode button: two-up becomes single, anything else becomes two-up. */
  function ToggledMode(mode: ViewMode): (m: ViewMode)
    ensures m != mode
  {
    if mode == TwoUp then Single else TwoUp
  }

  lemma ToggleModeTwice(mode: ViewMode)
    ensures ToggledMode(ToggledMode(mode)) == mode
  {
  }

  /** A second page is drawn only in two-up mode and only when the current page is not the last. */
  predicate ShowSecond(mode: ViewMode, pageNum: int, numPages: int)
  {
    mode == TwoUp && pageNum < numPages
  }

  /** The pages `renderPages` draws: the current page, then its successor when a second page is shown. */
  function RenderedPages(mode: ViewMode, pageNum: int, numPages: int): (pages: seq<int>)
    ensures 1 <= |pages| <= 2 && pages[0] == pageNum
    ensures |pages| == 2 <==> mode == TwoUp && pageNum < numPages
    ensures |pages| == 2 ==> pages[1] == pageNum + 1
    ensures 1 <= pageNum <= numPages ==> forall k :: 0 <= k < |pages| ==> 1 <= pages[k] <= numPages
  {
    if ShowSecond(mode, pageNum, numPages) then [pageNum, pageNum + 1] else [pageNum]
  }

  /** Single mode draws one page; toggling to two-up and back draws the same pages as before. */
  lemma LayoutRoundTrip(pageNum: int, numPages: int)
    ensures RenderedPages(Single, pageNum, numPages) == [pageNum]
    ensures RenderedPages(ToggledMode(ToggledMode(Single)), pageNum, numPages) == RenderedPages(Single, pageNum, numPages)
    ensures pageNum < numPages ==> RenderedPages(ToggledMode(Single), pageNum, numPages) == [pageNum, pageNum + 1]
  {
  }

  /**
   * The properties `handleTextPropsChange` stores: a missing or "transparent"
   * fill becomes the theme colour; every other field is kept.
   */
  function WithDefaultFill(tp: TextProps): (r: TextProps)
    ensures r.fill != "" && r.fill != "transparent"
    ensures tp.fill != "" && tp.fill != "transparent" ==> r == tp
    ensures tp.fill == "" || tp.fill == "transparent" ==> r == tp.(fill := ThemeColor)
  {
    if tp.fill == "" || tp.fill == "transparent" then tp.(fill := ThemeColor) else tp
  }

  lemma WithDefaultFillIdempotent(tp: TextProps)
    ensures WithDefaultFill(WithDefaultFill(tp)) == WithDefaultFill(tp)
  {
  }

  /**
   * An object of text properties as the selection callback receives it: each
   * key present (`Some`) or absent (`None`).
   */
  datatype PropsUpdate = PropsUpdate(
    fontSize: Option<int>, fontFamily: Option<string>, bold: Option<bool>, italic: Option<bool>,
    fill: Option<string>, backgroundColor: Option<string>, shadow: Option<bool>)

  function Pick<T>(update: Option<T>, prev: T): T
  {
    if update.Some? then update.value else prev
  }

  /** `{ ...prev, ...update }`: every key the update carries wins, every other key keeps its value. */
  function Merge(prev: TextProps, update: PropsUpdate): (r: TextProps)
    ensures update.fontSize.Some? ==> r.fontSize == update.fontSize.value
    ensures update.fontSize.None? ==> r.fontSize == prev.fontSize
    ensures update.fontFamily.Some? ==> r.fontFamily == update.fontFamily.value
    ensures update.fontFamily.None? ==> r.fontFamily == prev.fontFamily
    ensures update.bold.Some? ==> r.bold == update.bold.value
    ensures update.bold.None? ==> r.bold == prev.bold
    ensures update.italic.Some? ==> r.italic == update.italic.value
    ensures update.italic.None? ==> r.italic == prev.italic
    ensures update.fill.Some? ==> r.fill == update.fill.value
    ensures update.fill.None? ==> r.fill == prev.fill
    ensures update.backgroundColor.Some? ==> r.backgroundColor == update.backgroundColor.value
    ensures update.backgroundColor.None? ==> r.backgroundColor == prev.backgroundColor
    ensures update.shadow.Some? ==> r.shadow == update.shadow.value
    ensures update.shadow.None? ==> r.shadow == prev.shadow
  {
    TextProps(
      Pick(update.fontSize, prev.fontSize), Pick(update.fontFamily, prev.fontFamily),
      Pick(update.bold, prev.bold), Pick(update.italic, prev.italic),
      Pick(update.fill, prev.fill), Pick(update.backgroundColor, prev.backgroundColor),
      Pick(update.shadow, prev.shadow))
  }

  /** The full set of text properties as an update carrying every key. */
  function Full(tp: TextProps): PropsUpdate
  {
    PropsUpdate(Some(tp.fontSize), Some(tp.fontFamily), Some(tp.bold), Some(tp.italic),
                Some(tp.fill), Some(tp.backgroundColor), Some(tp.shadow))
  }

  /** An update carrying every key (as the text tool's selection report does) replaces the old properties outright. */
  lemma MergeFullReplaces(prev: TextProps, tp: TextProps)
    ensures Merge(prev, Full(tp)) == tp
  {
  }

  /** Applying the same update twice is applying it once. */
  lemma MergeIdempotent(prev: TextProps, update: PropsUpdate)
    ensures Merge(Merge(prev, update), update) == Merge(prev, update)
  {
  }

  // ---------------------------------------------------------------------------
  // The viewer's state

  /** The state the viewer keeps and its toolbar handlers change. */
  class Viewer {
    var pageNum: int
    var numPages: int
    var activeTool: Option<Tool>
    var viewMode: ViewMode
    var textProps: TextProps
    var textSelectionActive: bool

    /** The current page lies inside the document. */
    ghost predicate InRange()
      reads this
    {
      1 <= pageNum <= numPages
    }

    /** A fresh viewer on `initialPage` of a document whose page count is not known yet. */
    constructor (initialPage: int)
      ensures pageNum == initialPage && numPages == 0 && activeTool.None? && viewMode == Single
      ensures textProps == DefaultTextProps && !textSelectionActive
    {
      pageNum := initialPage;
      numPages := 0;
      activeTool := None;
      viewMode := Single;
      textProps := DefaultTextProps;
      textSelectionActive := false;
    }

    /** The document has been opened: its page count becomes known (0 when it reports none). */
    method DocumentLoaded(pageCount: int)
      modifies this`numPages
      ensures numPages == pageCount
    {
      numPages := pageCount;
    }

    /** `toggleTool`: the pressed tool becomes active, or turns off when it already was. */
    method ToggleTool(tool: Tool)
      modifies this`activeTool
      ensures activeTool == Toggled(old(activeTool), tool)
      ensures activeTool.Some? <==> old(activeTool) != Some(tool)
    {
      activeTool := Toggled(activeTool, tool);
    }

    /** "Previous page": clears the tool and steps back unless on the first page. */
    method OnPrev()
      modifies this`activeTool, this`pageNum
      ensures activeTool.None?
      ensures pageNum == PrevPage(old(pageNum))
      ensures old(InRange()) ==> InRange()
    {
      activeTool := None;
      if pageNum > 1 {
        pageNum := pageNum - 1;
      }
    }

    /** "Next page": clears the tool and steps forward unless on the last page. */
    method OnNext()
      modifies this`activeTool, this`pageNum
      ensures activeTool.None?
      ensures pageNum == NextPage(old(pageNum), numPages)
      ensures old(InRange()) ==> InRange()
    {
      activeTool := None;
      if pageNum < numPages {
        pageNum := pageNum + 1;
      }
    }

    /** The layout button: swaps single and two-up; the page is unchanged. */
    method OnToggleViewMode()
      modifies this`viewMode
      ensures viewMode == ToggledMode(old(viewMode))
    {
      viewMode := if viewMode == TwoUp then Single else TwoUp;
    }

    /** The pages drawn for the current state. */
    function Rendered(): (pages: seq<int>)
      reads this
      ensures InRange() ==> forall k :: 0 <= k < |pages| ==> 1 <= pages[k] <= numPages
    {
      RenderedPages(viewMode, pageNum, numPages)
    }

    /** `handleTextPropsChange`: stores the toolbar's properties with the fill defaulted. */
    method HandleTextPropsChange(tp: TextProps)
      modifies this`textProps
      ensures textProps == WithDefaultFill(tp)
      ensures textProps.fill != "" && textProps.fill != "transparent"
    {
      var stored := tp;
      if stored.fill == "" || stored.fill == "transparent" {
        stored := stored.(fill := ThemeColor);
      }
      textProps := stored;
    }

    /**
     * `handleSelectionChange`: `null` only marks that no text is selected; any
     * report is merged over the current properties and marks a text selection.
     */
    method HandleSelectionChange(update: Option<PropsUpdate>)
      modifies this`textProps, this`textSelectionActive
      ensures update.None? ==> !textSelectionActive && textProps == old(textProps)
      ensures update.Some? ==> textSelectionActive && textProps == Merge(old(textProps), update.value)
    {
      if update.None? {
        textSelectionActive := false;
        return;
      }
      textProps := Merge(textProps, update.value);
      textSelectionActive := true;
    }
  }
}

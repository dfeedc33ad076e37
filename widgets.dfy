/**
 * The input state machines of the widgets in uiframework/widgets.py.
 *
 * Base-widget effects from the core, which is not part of this model, are plain
 * fields: `tag_redraw` sets `dirty`, `resize` sets `width`/`height`, `show` and
 * `hide` set `visible`, and `Widget.input_focus` is a field of a shared
 * `FocusContext`.  Drawing is not modelled.
 */
module Widgets {
  import opened Wrappers
  import opened PyValues
  import opened PyStrings

  // Key codes from curses and curses.ascii.
  const KeyDownCode: int := 258
  const KeyUpCode: int := 259
  const KeyEnterCode: int := 343
  const LineFeed: int := 10
  const CarriageReturn: int := 13
  const BackspaceCode: int := 8
  const DeleteCode: int := 127

  /**
   * An input key; `Char(code)` is every key code not named by another case.
   * The widgets' contracts hold for every `Key`, including a `Char` carrying
   * one of the named codes, which `KeyOf` never produces.
   */
  datatype Key = Enter | Up | Down | Backspace | Char(code: int)

  /** A key as `KeyOf` produces it: a `Char` never carries a code another case names. */
  predicate Classified(k: Key)
  {
    k.Char? ==> k.code !in {KeyEnterCode, LineFeed, CarriageReturn, BackspaceCode, DeleteCode, KeyDownCode, KeyUpCode}
  }

  /** Classifies a curses key code the way the widgets' `operate` methods test it. */
  function KeyOf(code: int): (k: Key)
    ensures k == Enter <==> code == KeyEnterCode || code == LineFeed || code == CarriageReturn
    ensures k == Backspace <==> code == BackspaceCode || code == DeleteCode
    ensures k == Down <==> code == KeyDownCode
    ensures k == Up <==> code == KeyUpCode
    ensures k.Char? ==> k.code == code
    ensures Classified(k)
  {
    if code == KeyEnterCode || code == LineFeed || code == CarriageReturn then Enter
    else if code == BackspaceCode || code == DeleteCode then Backspace
    else if code == KeyDownCode then Down
    else if code == KeyUpCode then Up
    else Char(code)
  }

  /** `curses.ascii.isprint`. */
  predicate IsPrint(k: Key)
  {
    k.Char? && 32 <= k.code <= 126
  }

  /** `curses.ascii.isdigit`. */
  predicate IsDigit(k: Key)
  {
    k.Char? && '0' as int <= k.code <= '9' as int
  }

  /** What `operate` tells the input loop. */
  datatype Reply = Continue | End

  /** What `compose` returns: whether to emit a data signal, and its fields. */
  datatype Composed = Composed(emit: bool, data: map<string, Value>)

  /** Holder of `Widget.input_focus`: the widget that receives input next. */
  class FocusContext {
    var inputFocus: object?

    constructor ()
      ensures inputFocus == null
    {
      inputFocus := null;
    }
  }

  /** Push button (widgets.py:14-64). */
  class Button {
    const caption: string
    var isPushed: bool
    var width: int
    var height: int

    constructor (caption: string)
      ensures this.caption == caption && !isPushed
      ensures width == |caption| + 4 && height == 1
    {
      this.caption := caption;
      isPushed := false;
      new;
      Fit();
    }

    /** Focusing resets the button (widgets.py:32-34). */
    method Focus()
      modifies this`isPushed
      ensures !isPushed
    {
      isPushed := false;
    }

    /** Emits exactly when the button was pushed, with no fields (widgets.py:37-39). */
    function Compose(): (c: Composed)
      reads this
      ensures c.emit <==> isPushed
      ensures c.data == map[]
    {
      Composed(isPushed, map[])
    }

    /** Enter pushes the button and ends input; other keys change nothing (widgets.py:53-59). */
    method Operate(k: Key) returns (reply: Reply)
      modifies this`isPushed
      ensures reply == End <==> k == Enter
      ensures isPushed == (old(isPushed) || k == Enter)
    {
      if k == Enter {
        isPushed := true;
        return End;
      }
      return Continue;
    }

    /** The button is its label plus four columns wide and one row high (widgets.py:62-64). */
    method Fit()
      modifies this`width, this`height
      ensures width == |caption| + 4 && height == 1
    {
      width, height := |caption| + 4, 1;
    }
  }

  /** The highlight after Down in a selection list (widgets.py:85-89). */
  function NextHighlight(h: int, n: int): (r: int)
    ensures 0 <= h < n ==> 0 <= r < n && r == (h + 1) % n
  {
    if h + 1 == n then 0 else h + 1
  }

  /** The highlight after Up in a selection list (widgets.py:92-96). */
  function PrevHighlight(h: int, n: int): (r: int)
    ensures 0 <= h < n ==> 0 <= r < n && r == (h - 1) % n
  {
    if h == 0 then n - 1 else h - 1
  }

  /** Up undoes Down and Down undoes Up on an in-range highlight. */
  lemma NextPrevInverse(h: int, n: int)
    requires 0 <= h < n
    ensures PrevHighlight(NextHighlight(h, n), n) == h
    ensures NextHighlight(PrevHighlight(h, n), n) == h
  {
  }

  /** List with a movable highlight and a selected index (widgets.py:67-102). */
  class SelectionList {
    var items: seq<string>
    var highlight: int
    var selection: Option<int>
    var dirty: bool

    constructor ()
      ensures items == [] && highlight == 0 && selection == None && !dirty
    {
      items, highlight, selection, dirty := [], 0, None, false;
    }

    /**
     * Down and Up move the highlight, wrapping at both ends; Enter selects the
     * highlighted index; input never ends here (widgets.py:80-102).
     */
    method Operate(k: Key) returns (reply: Reply)
      modifies this`highlight, this`selection, this`dirty
      ensures reply == Continue
      ensures dirty == (old(dirty) || k == Down || k == Up || k == Enter)
      ensures highlight == match k
        case Down => NextHighlight(old(highlight), |items|)
        case Up => PrevHighlight(old(highlight), |items|)
        case _ => old(highlight)
      ensures 0 <= old(highlight) < |items| ==> 0 <= highlight < |items|
      ensures selection == if k == Enter then Some(old(highlight)) else old(selection)
    {
      if k == Down || k == Up || k == Enter {
        dirty := true;
        if k == Down {
          if highlight + 1 == |items| {
            highlight := 0;
          } else {
            highlight := highlight + 1;
          }
        } else if k == Up {
          if highlight == 0 {
            highlight := |items| - 1;
          } else {
            highlight := highlight - 1;
          }
        } else {
          selection := Some(highlight);
        }
      }
      return Continue;
    }
  }

  /** The modes of a status line; `Unset` is the initial empty mode string. */
  datatype Mode = Unset | PromptConfirmMode | DisplayFeedbackMode

  /** Usage line, feedback messages and confirmation prompts (widgets.py:128-248). */
  class StatusLine {
    const context: FocusContext
    var mode: Mode
    var error: bool
    var feedback: string
    var prompt: string
    var sigconfirm: string
    var status: string
    var dirty: bool
    /** The data of every signal this widget bubbled, oldest first. */
    var bubbled: seq<map<string, Value>>

    constructor (context: FocusContext)
      ensures this.context == context && mode == Unset && !error
      ensures feedback == "" && prompt == "" && sigconfirm == "" && status == ""
      ensures !dirty && bubbled == []
    {
      this.context := context;
      mode, error, feedback, prompt, sigconfirm, status := Unset, false, "", "", "", "";
      dirty, bubbled := false, [];
    }

    /**
     * Enter ends input only while prompting or showing feedback; confirming a
     * prompt bubbles the (empty) data of a fresh `sigconfirm` signal
     * (widgets.py:195-213).
     */
    method Operate(k: Key) returns (reply: Reply)
      modifies this`bubbled
      ensures reply == End <==> k == Enter && (mode == PromptConfirmMode || mode == DisplayFeedbackMode)
      ensures bubbled == if k == Enter && mode == PromptConfirmMode then old(bubbled) + [map[]] else old(bubbled)
    {
      if mode == PromptConfirmMode {
        if k == Enter {
          bubbled := bubbled + [map[]];
          return End;
        }
      } else if mode == DisplayFeedbackMode {
        if k == Enter {
          return End;
        }
      }
      return Continue;
    }

    /** Shows a feedback message and takes input focus (widgets.py:216-227). */
    method DisplayFeedback(message: string, error: bool)
      modifies this`mode, this`feedback, this`error, context`inputFocus
      ensures mode == DisplayFeedbackMode && feedback == message && this.error == error
      ensures context.inputFocus == this
    {
      mode := DisplayFeedbackMode;
      feedback := message;
      this.error := error;
      context.inputFocus := this;
    }

    /** Asks for confirmation and takes input focus (widgets.py:230-241). */
    method PromptConfirm(prompt: string, sigconfirm: string)
      modifies this`mode, this`prompt, this`sigconfirm, context`inputFocus
      ensures mode == PromptConfirmMode && this.prompt == prompt && this.sigconfirm == sigconfirm
      ensures context.inputFocus == this
    {
      mode := PromptConfirmMode;
      this.prompt := prompt;
      this.sigconfirm := sigconfirm;
      context.inputFocus := this;
    }

    /** Replaces the status text and asks for a redraw (widgets.py:244-248). */
    method UpdateStatus(status: string)
      modifies this`status, this`dirty
      ensures this.status == status && dirty
    {
      this.status := status;
      dirty := true;
    }
  }

  /** Hands every tab of a group the group's list (widgets.py:272-274). */
  method ShareTabList(list: seq<Tab>)
    modifies list
    ensures forall t :: t in list ==> t.tabList == list
  {
    var i := 0;
    while i < |list|
      invariant 0 <= i <= |list|
      invariant forall k :: 0 <= k < i ==> list[k].tabList == list
    {
      list[i].tabList := list;
      i := i + 1;
    }
  }

  /** Shows the first tab of a group and hides the others, leaving the lists alone (widgets.py:276-278). */
  method ShowFirstTab(list: seq<Tab>)
    requires list != []
    modifies list
    ensures forall t :: t in list ==> t.tabList == old(t.tabList)
    ensures forall k :: 1 <= k < |list| ==> !list[k].visible
    ensures list[0].visible <==> list[0] !in list[1..]
  {
    list[0].visible := true;
    var i := 1;
    while i < |list|
      invariant 1 <= i <= |list|
      invariant forall t :: t in list ==> t.tabList == old(t.tabList)
      invariant forall k :: 1 <= k < i ==> !list[k].visible
      invariant list[0].visible <==> list[0] !in list[1..i]
    {
      list[i].visible := false;
      i := i + 1;
    }
    assert list[1..i] == list[1..];
  }

  /** Tabbed container; only one tab among its siblings is shown (widgets.py:251-285). */
  class Tab {
    const caption: string
    var visible: bool
    var tabList: seq<Tab>

    /**
     * `parentTabs` is `None` without a parent, else the tabs already among the
     * parent's children; the new tab joins them last.  Every tab of the group
     * gets the same list, and only its first tab is shown (widgets.py:258-278).
     */
    constructor (caption: string, parentTabs: Option<seq<Tab>>)
      modifies if parentTabs.Some? then parentTabs.value else []
      ensures this.caption == caption
      ensures tabList == (if parentTabs.Some? then parentTabs.value else []) + [this]
      ensures forall t :: t in tabList ==> t.tabList == tabList
      ensures forall k :: 1 <= k < |tabList| ==> !tabList[k].visible
      ensures tabList[0].visible <==> tabList[0] !in tabList[1..]
    {
      this.caption := caption;
      new;
      var list := (if parentTabs.Some? then parentTabs.value else []) + [this];
      ShareTabList(list);
      ShowFirstTab(list);
    }

    /** Hides every sibling tab, then shows this one (widgets.py:281-285). */
    method Focus()
      modifies this, tabList
      ensures visible && tabList == old(tabList)
      ensures forall t :: t in tabList && t != this ==> !t.visible
      ensures forall t :: t in tabList ==> t.tabList == old(t.tabList)
      ensures old(tabList) == tabList
    {
      var i := 0;
      while i < |tabList|
        invariant 0 <= i <= |tabList| && tabList == old(tabList)
        invariant forall k :: 0 <= k < i ==> !tabList[k].visible
        invariant forall t :: t in tabList ==> t.tabList == old(t.tabList)
      {
        tabList[i].visible := false;
        i := i + 1;
      }
      visible := true;
    }
  }

  /** Line-by-line text display (widgets.py:344-393). */
  class Text {
    var lines: seq<string>

    constructor ()
      ensures lines == []
    {
      lines := [];
    }

    /** Appends one line (widgets.py:375-382). */
    method AddLine(line: string)
      modifies this`lines
      ensures lines == old(lines) + [line]
    {
      lines := lines + [line];
    }

    /**
     * Appends the newline-separated lines of `raw` (widgets.py:385-393): none of
     * them holds a newline, and rejoined with newlines they give back `raw`.
     */
    method AddRaw(raw: string)
      modifies this`lines
      ensures lines == old(lines) + Split(raw, '\n')
      ensures |lines| > |old(lines)| && Join(lines[|old(lines)|..], '\n') == raw
      ensures forall k :: |old(lines)| <= k < |lines| ==> '\n' !in lines[k]
    {
      var parts := Split(raw, '\n');
      var i := 0;
      while i < |parts|
        invariant 0 <= i <= |parts|
        invariant lines == old(lines) + parts[..i]
      {
        AddLine(parts[i]);
        i := i + 1;
      }
      assert parts[..i] == parts;
      assert lines[|old(lines)|..] == parts;
      JoinSplit(raw, '\n');
    }
  }

  /** Label text shown for another widget (widgets.py:396-446). */
  class Label {
    /** The label of the widget that uses this one. */
    const ownerLabel: string
    var text: string
    var width: int
    var height: int

    constructor (ownerLabel: string)
      ensures this.ownerLabel == ownerLabel && text == ownerLabel
      ensures width == |ownerLabel| && height == 1
    {
      this.ownerLabel := ownerLabel;
      text := ownerLabel;
      new;
      Fit();
    }

    /** Surrounds the owner's label with `prefix` and `suffix`, then refits (widgets.py:424-433). */
    method Embellish(prefix: string, suffix: string)
      modifies this`text, this`width, this`height
      ensures text == prefix + ownerLabel + suffix
      ensures width == |prefix| + |ownerLabel| + |suffix| && height == 1
    {
      text := prefix + ownerLabel + suffix;
      Fit();
    }

    /** One row exactly as wide as the text (widgets.py:444-446). */
    method Fit()
      modifies this`width, this`height
      ensures width == |text| && height == 1
    {
      width, height := |text|, 1;
    }
  }

  /** Free text input (widgets.py:526-588). */
  class TextField {
    var text: string
    var isObscured: bool
    var dirty: bool

    constructor ()
      ensures text == "" && !isObscured && !dirty
    {
      text, isObscured, dirty := "", false, false;
    }

    /** Always emits, carrying the text (widgets.py:547-548). */
    function Compose(): (c: Composed)
      reads this
      ensures c.emit
      ensures c.data.Keys == {"text"} && c.data["text"] == Str(text)
    {
      Composed(true, map["text" := Str(text)])
    }

    /**
     * A printable key appends its character, Backspace or Delete drops the
     * last one, nothing else edits; input never ends here (widgets.py:567-578).
     */
    method Operate(k: Key) returns (reply: Reply)
      modifies this`text, this`dirty
      ensures reply == Continue
      ensures IsPrint(k) ==> text == old(text) + [k.code as char]
      ensures k == Backspace ==> text == if old(text) == "" then "" else old(text)[..|old(text)| - 1]
      ensures !IsPrint(k) && k != Backspace ==> text == old(text)
      ensures dirty == (old(dirty) || IsPrint(k) || k == Backspace)
    {
      if IsPrint(k) {
        dirty := true;
        text := text + [k.code as char];
      } else if k == Backspace {
        dirty := true;
        if text != "" {
          text := text[..|text| - 1];
        }
      }
      return Continue;
    }

    /** Hides the text behind asterisks (widgets.py:581-583). */
    method Obscure()
      modifies this`isObscured
      ensures isObscured
    {
      isObscured := true;
    }

    /** Shows the text again (widgets.py:586-588). */
    method Reveal()
      modifies this`isObscured
      ensures !isObscured
    {
      isObscured := false;
    }
  }

  predicate AllDigits(s: string)
  {
    forall k :: 0 <= k < |s| ==> '0' <= s[k] <= '9'
  }

  /** Python's `int(s)` for a string of decimal digits. */
  function DecimalValue(s: string): nat
    requires AllDigits(s)
  {
    if s == [] then 0 else 10 * DecimalValue(s[..|s| - 1]) + (s[|s| - 1] as int - '0' as int)
  }

  function Pow10(n: nat): (p: nat)
    ensures p >= 1
  {
    if n == 0 then 1 else 10 * Pow10(n - 1)
  }

  /** A string of `n` digits denotes a number below 10^n. */
  lemma {:induction false} DecimalValueBound(s: string)
    requires AllDigits(s)
    ensures DecimalValue(s) < Pow10(|s|)
  {
    if s != [] {
      DecimalValueBound(s[..|s| - 1]);
    }
  }

  /** Dropping the last digit divides the value by ten, rounding down. */
  lemma DecimalValueDropLast(s: string)
    requires AllDigits(s) && s != []
    ensures DecimalValue(s[..|s| - 1]) == DecimalValue(s) / 10
  {
    var d := s[|s| - 1] as int - '0' as int;
    assert 0 <= d < 10;
    var v := DecimalValue(s[..|s| - 1]);
    assert DecimalValue(s) == 10 * v + d;
    assert (10 * v + d) / 10 == v;
  }

  /** Integer input between digits only (widgets.py:591-642). */
  class NumericField {
    var number: string
    var dirty: bool

    /** The buffer holds only digits, so `int()` never fails on it. */
    ghost predicate Valid()
      reads this
    {
      AllDigits(number)
    }

    constructor ()
      ensures Valid() && number == "" && !dirty
    {
      number, dirty := "", false;
    }

    /** Emits exactly when some digit was typed, carrying its value or else None (widgets.py:609-613). */
    function Compose(): (c: Composed)
      reads this
      requires Valid()
      ensures c.emit <==> number != ""
      ensures c.data.Keys == {"number"}
      ensures c.data["number"] == Null <==> number == ""
      ensures number != "" ==> c.data["number"] == Int(DecimalValue(number))
    {
      Composed(number != "", map["number" := if number != "" then Int(DecimalValue(number)) else Null])
    }

    /**
     * A digit key appends its digit, Backspace or Delete drops the last one,
     * nothing else edits; the buffer stays all digits (widgets.py:631-642).
     */
    method Operate(k: Key) returns (reply: Reply)
      requires Valid()
      modifies this`number, this`dirty
      ensures Valid()
      ensures reply == Continue
      ensures IsDigit(k) ==> number == old(number) + [k.code as char]
      ensures IsDigit(k) ==> DecimalValue(number) == 10 * DecimalValue(old(number)) + (k.code - '0' as int)
      ensures k == Backspace ==> number == if old(number) == "" then "" else old(number)[..|old(number)| - 1]
      ensures k == Backspace && old(number) != "" ==> DecimalValue(number) == DecimalValue(old(number)) / 10
      ensures !IsDigit(k) && k != Backspace ==> number == old(number)
      ensures dirty == (old(dirty) || IsDigit(k) || k == Backspace)
    {
      if IsDigit(k) {
        dirty := true;
        number := number + [k.code as char];
        assert number[..|number| - 1] == old(number);
      } else if k == Backspace {
        dirty := true;
        if number != "" {
          DecimalValueDropLast(number);
          number := number[..|number| - 1];
        }
      }
      return Continue;
    }
  }

  const NoSelection: string := "-- NO SELECTION --"

  /**
   * How many options an expanded select field shows (widgets.py:792-796): the
   * least of the limit (the parent's height when unlimited), the room below
   * the field, and the number of options.
   */
  function ExpandedCount(limit: int, parentHeight: int, top: int, count: nat): (c: int)
    ensures c <= count && c <= parentHeight - top - 3
    ensures c <= if limit < 0 then parentHeight else limit
    ensures c == count || c == parentHeight - top - 3 || c == (if limit < 0 then parentHeight else limit)
  {
    var c0 := if limit < 0 then parentHeight else limit;
    var c1 := if c0 < parentHeight - top - 3 then c0 else parentHeight - top - 3;
    if c1 < count then c1 else count
  }

  /**
   * The scroll offset once the highlight has moved (widgets.py:763-767): it
   * stays put while the highlight is in the window of `window` rows, and
   * otherwise moves just enough to bring the highlight into the window.
   */
  function Scrolled(h: int, scroll: int, window: int): (s: int)
    ensures window >= 1 ==> s <= h < s + window
    ensures scroll <= h < scroll + window ==> s == scroll
    ensures h < scroll ==> s == h
    ensures scroll + window <= h && scroll <= h ==> s + window == h + 1
  {
    if h < scroll then h
    else if h >= scroll + window then h - window + 1
    else scroll
  }

  /** Enumerated input with a drop-down option list (widgets.py:645-824). */
  class SelectField {
    var options: seq<string>
    var optionsLimit: int
    var highlight: int
    var initHighlight: int
    var vertScroll: int
    var autoExpand: bool
    var expanded: bool
    var overlayed: bool
    var height: int
    var dirty: bool
    /** Redraw request sent to the nearest batching ancestor. */
    var ancestorDirty: bool
    /** Height of the parent widget. */
    const parentHeight: int
    /** Row of this widget. */
    const top: int

    /** The first option is always the "no selection" entry; indices are never negative. */
    ghost predicate Valid()
      reads this
    {
      |options| >= 1 && options[0] == NoSelection && highlight >= 0 && vertScroll >= 0
    }

    constructor (parentHeight: int, top: int)
      ensures Valid() && this.parentHeight == parentHeight && this.top == top
      ensures options == [NoSelection] && optionsLimit == -1
      ensures highlight == 0 && initHighlight == 0 && vertScroll == 0
      ensures !autoExpand && !expanded && !overlayed && height == 3 && ancestorDirty && !dirty
    {
      this.parentHeight := parentHeight;
      this.top := top;
      options := [NoSelection];
      optionsLimit := -1;
      highlight, initHighlight, vertScroll := 0, 0, 0;
      autoExpand := false;
      dirty := false;
      new;
      Collapse();
    }

    /**
     * Emits when the highlight moved since focus was gained, carrying the
     * highlighted option, or None for the "no selection" entry; a highlight
     * past the end of the options raises IndexError (widgets.py:678-682).
     */
    function Compose(): (r: Result<Composed, Exception>)
      reads this
      requires Valid()
      ensures r.Failure? <==> highlight >= |options|
      ensures r.Failure? ==> r.error == IndexError
      ensures r.Success? ==> r.value.emit == (highlight != initHighlight)
      ensures r.Success? ==> r.value.data.Keys == {"option"}
      ensures r.Success? ==> (r.value.data["option"] == Null <==> highlight == 0)
      ensures r.Success? && highlight > 0 ==> r.value.data["option"] == Str(options[highlight])
    {
      if highlight >= |options| then Failure(IndexError)
      else Success(Composed(highlight != initHighlight,
                            map["option" := if highlight > 0 then Str(options[highlight]) else Null]))
    }

    /** Replaces the options, refreshing the expanded height (widgets.py:685-689). */
    method Decompose(newOptions: seq<string>)
      requires Valid()
      modifies this`options, this`height, this`expanded
      ensures Valid()
      ensures options == [NoSelection] + newOptions && expanded == old(expanded)
      ensures height == if expanded then ExpandedCount(optionsLimit, parentHeight, top, |options|) + 2 else old(height)
    {
      LoadOptions(newOptions);
      if expanded {
        Expand();
      }
    }

    /** Remembers the highlight at focus time and scrolls to it (widgets.py:692-701). */
    method Focus()
      requires Valid()
      modifies this`initHighlight, this`vertScroll, this`height, this`expanded
      ensures Valid()
      ensures initHighlight == highlight && vertScroll == highlight
      ensures autoExpand ==> expanded && height == ExpandedCount(optionsLimit, parentHeight, top, |options|) + 2
      ensures !autoExpand ==> expanded == old(expanded) && height == old(height)
    {
      initHighlight := highlight;
      if autoExpand {
        Expand();
      }
      vertScroll := highlight;
    }

    /** Scrolls to the highlight and collapses when automated (widgets.py:704-710). */
    method Blur()
      requires Valid()
      modifies this`vertScroll, this`height, this`ancestorDirty, this`expanded, this`overlayed
      ensures Valid()
      ensures vertScroll == highlight
      ensures autoExpand ==> height == 3 && ancestorDirty && !expanded && !overlayed
      ensures !autoExpand ==>
        (height == old(height) && ancestorDirty == old(ancestorDirty) &&
         expanded == old(expanded) && overlayed == old(overlayed))
    {
      vertScroll := highlight;
      if autoExpand {
        Collapse();
      }
    }

    /**
     * Down and Up move the highlight one step, wrapping modulo the number of
     * options, then scroll it into view; Enter ends input without moving
     * anything (widgets.py:738-769).
     */
    method Operate(k: Key) returns (reply: Reply)
      requires Valid()
      modifies this`highlight, this`vertScroll, this`dirty, this`overlayed
      ensures Valid()
      ensures reply == End <==> k == Enter
      ensures overlayed == (old(overlayed) || expanded)
      ensures dirty == (old(dirty) || (expanded && !old(overlayed)) || k == Down || k == Up || k == Enter)
      ensures highlight == match k
        case Down => (old(highlight) + 1) % |options|
        case Up => (old(highlight) - 1) % |options|
        case _ => old(highlight)
      ensures k == Down || k == Up ==> 0 <= highlight < |options|
      ensures vertScroll == if k == Down || k == Up then Scrolled(highlight, old(vertScroll), height - 2) else old(vertScroll)
      ensures (k == Down || k == Up) && height - 2 >= 1 ==> vertScroll <= highlight < vertScroll + (height - 2)
    {
      if expanded && !overlayed {
        dirty := true;
        overlayed := true;
      }
      if k == Down || k == Up || k == Enter {
        dirty := true;
        if k == Down {
          highlight := highlight + 1;
          highlight := highlight % |options|;
        } else if k == Up {
          highlight := highlight - 1;
          highlight := highlight % |options|;
        } else {
          return End;
        }
        var effectiveHeight := height - 2;
        if highlight < vertScroll {
          vertScroll := highlight;
        } else if highlight >= vertScroll + effectiveHeight {
          vertScroll := highlight - effectiveHeight + 1;
        }
      }
      return Continue;
    }

    /** Flags the field for automated expansion (widgets.py:771-773). */
    method AutoExpand()
      modifies this`autoExpand
      ensures autoExpand
    {
      autoExpand := true;
    }

    /** Shrinks to a single option and asks the ancestor to redraw (widgets.py:776-786). */
    method Collapse()
      modifies this`height, this`ancestorDirty, this`expanded, this`overlayed
      ensures height == 3 && ancestorDirty && !expanded && !overlayed
    {
      height := 3;
      ancestorDirty := true;
      expanded := false;
      overlayed := false;
    }

    /** Grows to show as many options as fit, plus the border (widgets.py:789-801). */
    method Expand()
      modifies this`height, this`expanded
      ensures expanded
      ensures height == ExpandedCount(optionsLimit, parentHeight, top, |options|) + 2
      ensures height - 2 <= |options|
    {
      var optionCount := if optionsLimit < 0 then parentHeight else optionsLimit;
      optionCount := if optionCount < parentHeight - top - 3 then optionCount else parentHeight - top - 3;
      optionCount := if optionCount < |options| then optionCount else |options|;
      height := optionCount + 2;
      expanded := true;
    }

    /** Limits the options shown to at least one (widgets.py:804-813). */
    method LimitOptions(count: int)
      modifies this`optionsLimit, this`height, this`expanded
      ensures optionsLimit == if count < 1 then 1 else count
      ensures optionsLimit >= 1
      ensures expanded == old(expanded)
      ensures height == if expanded then ExpandedCount(optionsLimit, parentHeight, top, |options|) + 2 else old(height)
    {
      optionsLimit := if count < 1 then 1 else count;
      if expanded {
        Expand();
      }
    }

    /** The options become "no selection" followed by `newOptions` (widgets.py:816-824). */
    method LoadOptions(newOptions: seq<string>)
      requires Valid()
      modifies this`options
      ensures Valid()
      ensures options == [NoSelection] + newOptions
      ensures options[1..] == newOptions
    {
      options := [NoSelection] + newOptions;
    }
  }

  /** Typing "h", "i" and Backspace into a text field leaves "h", which is what it emits. */
  method TextFieldScenario() returns (text: string, composed: Composed)
    ensures text == "h"
    ensures composed == Composed(true, map["text" := Str("h")])
  {
    var field := new TextField();
    var reply := field.Operate(KeyOf('h' as int));
    reply := field.Operate(KeyOf('i' as int));
    assert field.text == "hi";
    reply := field.Operate(KeyOf(DeleteCode));
    text := field.text;
    composed := field.Compose();
  }

  /**
   * Down on a select field loaded with three options walks the four entries
   * (the "no selection" entry first) and wraps back to the start.
   */
  method SelectFieldScenario() returns (highlights: seq<int>)
    ensures highlights == [1, 2, 3, 0]
  {
    var field := new SelectField(24, 0);
    field.LoadOptions(["A", "B", "C"]);
    highlights := [];
    var i := 0;
    while i < 4
      invariant 0 <= i <= 4 && |highlights| == i
      invariant field.Valid() && |field.options| == 4
      invariant field.highlight == (if i == 4 then 0 else i)
      invariant forall k :: 0 <= k < i ==> highlights[k] == (if k == 3 then 0 else k + 1)
    {
      var reply := field.Operate(Down);
      highlights := highlights + [field.highlight];
      i := i + 1;
    }
  }
}

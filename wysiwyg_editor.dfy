/** The markdown-style editor of src/lib/wysiwyg-editor.tsx: a textarea with
    a toolbar. Formatting splices markup around the selected text and hands
    the new text to the parent's `onChange`; the toolbar's own state is a set
    of pressed flags, style settings, the pending link URL and whether the
    link popover is open.

    The textarea is controlled, so its text is the `value` prop; its
    selection is passed in, or `None` when the element is not in the
    document. A formatting call returns the string given to `onChange`, or
    `None` when there is no call. */
module WysiwygEditor {
  import opened Wrappers
  import opened Strings

  /** The `formatType` strings the switch knows, and any other. */
  datatype Format = Bold | Italic | Underline | Strikethrough | Link | List | OrderedList | Clear
                  | Unknown(name: string)

  /** The four formats with a toggle button. */
  predicate IsMark(f: Format)
  {
    f == Bold || f == Italic || f == Underline || f == Strikethrough
  }

  /** `selectionStart` and `selectionEnd` of the textarea. */
  datatype Selection = Selection(start: nat, end: nat)

  predicate InText(value: string, sel: Selection)
  {
    sel.start <= sel.end <= |value|
  }

  // ---------------------------------------------------------------------
  // `replace(/(\*\*|__|\*|_|~~|<u>|<\/u>)/g, '')`: one left-to-right pass
  // that deletes each match and resumes after it.
  // ---------------------------------------------------------------------

  /** Length of the match at the start of `s`, 0 when none matches there.
      Every alternative begins with a marker character, so the first
      characters decide; `MatchLengthFollowsPattern` shows this is the
      alternatives tried in the pattern's order. */
  function MatchLength(s: string): (k: nat)
    ensures k <= |s|
    ensures s != [] && (s[0] == '*' || s[0] == '_') ==> k >= 1
    ensures k > 0 ==> s[0] == '*' || s[0] == '_' || s[0] == '~' || s[0] == '<'
  {
    if s == [] then 0
    else if s[0] == '*' || s[0] == '_' then (if |s| >= 2 && s[1] == s[0] then 2 else 1)
    else if s[0] == '~' then (if |s| >= 2 && s[1] == '~' then 2 else 0)
    else if s[0] == '<' then
      (if |s| >= 3 && s[1] == 'u' && s[2] == '>' then 3
       else if |s| >= 4 && s[1] == '/' && s[2] == 'u' && s[3] == '>' then 4
       else 0)
    else 0
  }

  /** The alternatives `**`, `__`, `*`, `_`, `~~`, `<u>`, `</u>` tried in
      this order at the start of `s`: the first that matches wins. */
  lemma MatchLengthFollowsPattern(s: string)
    ensures MatchLength(s) ==
      if StartsWith(s, "**") || StartsWith(s, "__") then 2
      else if s != [] && (s[0] == '*' || s[0] == '_') then 1
      else if StartsWith(s, "~~") then 2
      else if StartsWith(s, "<u>") then 3
      else if StartsWith(s, "</u>") then 4
      else 0
  {
    if |s| >= 2 {
      assert StartsWith(s, "**") <==> s[0] == '*' && s[1] == '*' by { assert s[..2] == [s[0], s[1]]; }
      assert StartsWith(s, "__") <==> s[0] == '_' && s[1] == '_' by { assert s[..2] == [s[0], s[1]]; }
      assert StartsWith(s, "~~") <==> s[0] == '~' && s[1] == '~' by { assert s[..2] == [s[0], s[1]]; }
    }
    if |s| >= 3 {
      assert StartsWith(s, "<u>") <==> s[0] == '<' && s[1] == 'u' && s[2] == '>' by { assert s[..3] == [s[0], s[1], s[2]]; }
    }
    if |s| >= 4 {
      assert StartsWith(s, "</u>") <==> s[0] == '<' && s[1] == '/' && s[2] == 'u' && s[3] == '>' by {
        assert s[..4] == [s[0], s[1], s[2], s[3]];
      }
    }
  }

  function ClearMarkup(s: string): (r: string)
    ensures |r| <= |s|
    ensures forall i :: 0 <= i < |r| ==> r[i] != '*' && r[i] != '_'
    decreases |s|
  {
    if s == [] then []
    else
      var k := MatchLength(s);
      if k > 0 then ClearMarkup(s[k..])
      else
        var rest := ClearMarkup(s[1..]);
        assert forall i :: 1 <= i < 1 + |rest| ==> ([s[0]] + rest)[i] == rest[i - 1];
        [s[0]] + rest
  }

  /** No character that can begin a match. */
  predicate NoMarkup(t: string)
  {
    forall i :: 0 <= i < |t| ==> t[i] != '*' && t[i] != '_' && t[i] != '~' && t[i] != '<'
  }

  /** A leading character that begins no marker is kept, and clearing
      goes on after it. */
  lemma ClearPlainStep(s: string)
    requires s != [] && s[0] != '*' && s[0] != '_' && s[0] != '~' && s[0] != '<'
    ensures ClearMarkup(s) == [s[0]] + ClearMarkup(s[1..])
  {
  }

  /** Text without markup characters passes through untouched, whatever
      follows it. */
  lemma {:induction false} ClearPlainPrefix(t: string, x: string)
    requires NoMarkup(t)
    ensures ClearMarkup(t + x) == t + ClearMarkup(x)
    decreases |t|
  {
    if t == [] {
      assert t + x == x;
    } else {
      var tx := t + x;
      assert tx[0] == t[0] && tx[1..] == t[1..] + x;
      calc {
        ClearMarkup(tx);
        { ClearPlainStep(tx); }
        [t[0]] + ClearMarkup(t[1..] + x);
        { NoMarkupTail(t); ClearPlainPrefix(t[1..], x); }
        [t[0]] + (t[1..] + ClearMarkup(x));
        { assert [t[0]] + t[1..] == t; }
        t + ClearMarkup(x);
      }
    }
  }

  lemma NoMarkupTail(t: string)
    requires t != [] && NoMarkup(t)
    ensures NoMarkup(t[1..])
  {
    forall i | 0 <= i < |t[1..]| ensures t[1..][i] == t[i + 1] { }
  }

  /** Clear is the identity on text without markup characters. */
  lemma ClearKeepsPlainText(t: string)
    requires NoMarkup(t)
    ensures ClearMarkup(t) == t
  {
    ClearPlainPrefix(t, "");
    assert t + "" == t;
  }

  /** Clearing is a single pass, so it can expose new matches: applying it
      twice is not the same as once. */
  lemma ClearNotIdempotent()
    ensures ClearMarkup("<<u>u>") == "<u>"
    ensures ClearMarkup(ClearMarkup("<<u>u>")) == ""
  {
    var s := "<<u>u>";
    assert s[1..] == "<u>u>" && "<u>u>"[3..] == "u>" && "u>"[1..] == ">" && ">"[1..] == "";
    assert ClearMarkup("u>") == "u>";
    assert "<u>"[3..] == "";
  }

  // ---------------------------------------------------------------------
  // Formatting.
  // ---------------------------------------------------------------------

  /** The replacement for the selected text. */
  function Formatted(f: Format, selected: string, formatValue: Option<string>, linkUrl: string): (r: string)
    ensures f == Bold ==> r == "**" + selected + "**"
    ensures f == Italic ==> r == "*" + selected + "*"
    ensures f == Underline ==> r == "<u>" + selected + "</u>"
    ensures f == Strikethrough ==> r == "~~" + selected + "~~"
    ensures f == Link ==>
      r == "[" + (if selected == "" then "Link Text" else selected) + "]("
           + (if formatValue.None? || formatValue.value == "" then linkUrl else formatValue.value) + ")"
    ensures f == List ==> r == "\n- " + selected
    ensures f == OrderedList ==> r == "\n1. " + selected
    ensures f == Clear ==> r == ClearMarkup(selected)
    ensures f.Unknown? ==> r == selected
  {
    match f
    case Bold => "**" + selected + "**"
    case Italic => "*" + selected + "*"
    case Underline => "<u>" + selected + "</u>"
    case Strikethrough => "~~" + selected + "~~"
    case Link =>
      var url := if formatValue.None? || formatValue.value == "" then linkUrl else formatValue.value;
      "[" + (if selected == "" then "Link Text" else selected) + "](" + url + ")"
    case List => "\n- " + selected
    case OrderedList => "\n1. " + selected
    case Clear => ClearMarkup(selected)
    case Unknown(_) => selected
  }

  /** Clear undoes each of the four marks on text without markup. */
  lemma ClearUndoesMarks(f: Format, t: string)
    requires IsMark(f) && NoMarkup(t)
    ensures ClearMarkup(Formatted(f, t, None, "")) == t
  {
    var open, close := "", "";
    match f {
      case Bold => open, close := "**", "**";
      case Italic => open, close := "*", "*";
      case Underline => open, close := "<u>", "</u>";
      case Strikethrough => open, close := "~~", "~~";
    }
    ClearMarkClose(f, t, open, close);
  }

  /** Clearing `open + t + close` for plain `t`: the opening match is
      dropped first, then `t` is kept and `close` vanishes. */
  lemma ClearMarkClose(f: Format, t: string, open: string, close: string)
    requires NoMarkup(t)
    requires (f == Bold && open == "**" && close == "**") || (f == Italic && open == "*" && close == "*")
      || (f == Underline && open == "<u>" && close == "</u>") || (f == Strikethrough && open == "~~" && close == "~~")
    ensures ClearMarkup(Formatted(f, t, None, "")) == t
  {
    var rest := t + close;
    var s := open + rest;
    assert Formatted(f, t, None, "") == s;
    MarkCleared(close);
    if t == [] {
      assert rest == close;
      EmptyMarkCleared(open, close);
    } else {
      assert rest[0] == t[0];
      OpeningMatch(open, rest);
      calc {
        ClearMarkup(s);
        { ClearAfterMatch(s); assert s[|open|..] == rest; }
        ClearMarkup(t + close);
        { ClearPlainPrefix(t, close); }
        t + ClearMarkup(close);
        { assert t + "" == t; }
        t;
      }
    }
  }

  /** A match at the front is dropped and clearing goes on after it. */
  lemma ClearAfterMatch(s: string)
    requires MatchLength(s) > 0
    ensures ClearMarkup(s) == ClearMarkup(s[MatchLength(s)..])
  {
  }

  /** An opening mark followed by a character that begins no marker is
      matched alone. */
  lemma OpeningMatch(open: string, rest: string)
    requires open == "**" || open == "*" || open == "<u>" || open == "~~"
    requires rest != [] && rest[0] != '*' && rest[0] != '_' && rest[0] != '~' && rest[0] != '<'
    ensures MatchLength(open + rest) == |open|
  {
    var s := open + rest;
    assert s[|open|] == rest[0];
    assert forall i :: 0 <= i < |open| ==> s[i] == open[i];
  }

  /** Each closing mark on its own is one match. */
  lemma MarkCleared(m: string)
    requires m == "**" || m == "*" || m == "</u>" || m == "~~"
    ensures MatchLength(m) == |m| && ClearMarkup(m) == ""
  {
    assert m[|m|..] == "";
  }

  lemma EmptyMarkCleared(open: string, close: string)
    requires (open == "**" && close == "**") || (open == "*" && close == "*")
      || (open == "<u>" && close == "</u>") || (open == "~~" && close == "~~")
    ensures ClearMarkup(open + close) == ""
  {
    var s := open + close;
    MarkCleared(close);
    if open == "*" {
      assert s == "**" && MatchLength(s) == 2 && s[2..] == "";
    } else {
      assert s[..|open|] == open && s[|open|..] == close;
      assert MatchLength(s) == |open|;
    }
  }

  /** `formatText`: the text before the selection and after it is kept, and
      the selection is replaced by its formatted form. Without a textarea
      there is no `onChange` call. */
  function FormatText(f: Format, value: string, sel: Option<Selection>, formatValue: Option<string>,
                      linkUrl: string): (r: Option<string>)
    requires sel.Some? ==> InText(value, sel.value)
    ensures sel.None? <==> r.None?
    ensures sel.Some? ==>
      var s := sel.value;
      var piece := Formatted(f, value[s.start..s.end], formatValue, linkUrl);
      && |r.value| == |value| - (s.end - s.start) + |piece|
      && r.value[..s.start] == value[..s.start]
      && r.value[s.start..s.start + |piece|] == piece
      && r.value[s.start + |piece|..] == value[s.end..]
  {
    match sel
    case None => None
    case Some(s) =>
      var piece := Formatted(f, value[s.start..s.end], formatValue, linkUrl);
      var r := value[..s.start] + piece + value[s.end..];
      assert r[..s.start] == value[..s.start];
      assert r[s.start..s.start + |piece|] == piece;
      assert r[s.start + |piece|..] == value[s.end..];
      Some(r)
  }

  /** With an empty selection the formatted empty text is inserted at the
      caret and nothing is removed. */
  lemma FormatAtCaret(f: Format, value: string, caret: nat, formatValue: Option<string>, linkUrl: string)
    requires caret <= |value|
    ensures FormatText(f, value, Some(Selection(caret, caret)), formatValue, linkUrl)
      == Some(value[..caret] + Formatted(f, "", formatValue, linkUrl) + value[caret..])
  {
    assert value[caret..caret] == "";
  }

  /** An unknown format still calls `onChange`, with the text unchanged. */
  lemma UnknownFormatKeepsText(name: string, value: string, sel: Selection, linkUrl: string)
    requires InText(value, sel)
    ensures FormatText(Unknown(name), value, Some(sel), None, linkUrl) == Some(value)
  {
    assert value[..sel.start] + value[sel.start..sel.end] + value[sel.end..] == value;
  }

  /** The style the textarea gets from the options. */
  datatype TextStyle = TextStyle(fontSize: string, textAlign: string, color: string, backgroundColor: string)

  /** The toolbar's state. */
  class Editor {
    var bold: bool
    var italic: bool
    var underline: bool
    var strikethrough: bool
    var alignment: string
    var fontSize: string
    var textColor: string
    var backgroundColor: string
    var linkUrl: string
    var showLinkPopover: bool

    constructor ()
      ensures !bold && !italic && !underline && !strikethrough
      ensures alignment == "left" && fontSize == "14" && textColor == "#000000" && backgroundColor == "#ffffff"
      ensures linkUrl == "" && !showLinkPopover
    {
      bold, italic, underline, strikethrough := false, false, false, false;
      alignment, fontSize, textColor, backgroundColor := "left", "14", "#000000", "#ffffff";
      linkUrl := "";
      showLinkPopover := false;
    }

    /** Whether a mark's toggle shows as pressed. */
    function Pressed(f: Format): bool
      reads this
      requires IsMark(f)
    {
      match f
      case Bold => bold
      case Italic => italic
      case Underline => underline
      case Strikethrough => strikethrough
    }

    /** The textarea's inline style. */
    function Style(): (s: TextStyle)
      reads this
      ensures s.fontSize == fontSize + "px" && s.textAlign == alignment
      ensures s.color == textColor && s.backgroundColor == backgroundColor
    {
      TextStyle(fontSize + "px", alignment, textColor, backgroundColor)
    }

    /** A mark's toggle: `handleFormatToggle` records the new pressed state
      for that mark alone, and only pressing inserts markup; releasing
      removes none. */
    method Toggle(f: Format, pressed: bool, value: string, sel: Option<Selection>)
      returns (change: Option<string>)
      requires IsMark(f)
      requires sel.Some? ==> InText(value, sel.value)
      modifies this
      ensures Pressed(f) == pressed
      ensures forall g :: IsMark(g) && g != f ==> Pressed(g) == old(Pressed(g))
      ensures change == if pressed then FormatText(f, value, sel, None, linkUrl) else None
      ensures alignment == old(alignment) && fontSize == old(fontSize) && textColor == old(textColor)
      ensures backgroundColor == old(backgroundColor)
      ensures linkUrl == old(linkUrl) && showLinkPopover == old(showLinkPopover)
    {
      match f {
        case Bold => bold := pressed;
        case Italic => italic := pressed;
        case Underline => underline := pressed;
        case Strikethrough => strikethrough := pressed;
      }
      change := None;
      if pressed {
        change := FormatText(f, value, sel, None, linkUrl);
      }
    }

    /** A toolbar button that only formats (the two list buttons and
      Clear Formatting); no toolbar state changes. */
    method Press(f: Format, value: string, sel: Option<Selection>) returns (change: Option<string>)
      requires f == List || f == OrderedList || f == Clear
      requires sel.Some? ==> InText(value, sel.value)
      ensures change == FormatText(f, value, sel, None, linkUrl)
    {
      change := FormatText(f, value, sel, None, linkUrl);
    }

    /** `insertLink`: with no URL typed nothing happens; otherwise the link
      is inserted, the URL field is emptied and the popover closes. */
    method InsertLink(value: string, sel: Option<Selection>) returns (change: Option<string>)
      requires sel.Some? ==> InText(value, sel.value)
      modifies this
      ensures old(linkUrl) == "" ==> change.None? && linkUrl == old(linkUrl) && showLinkPopover == old(showLinkPopover)
      ensures old(linkUrl) != "" ==>
        && change == FormatText(Link, value, sel, Some(old(linkUrl)), old(linkUrl))
        && linkUrl == "" && !showLinkPopover
      ensures bold == old(bold) && italic == old(italic) && underline == old(underline)
      ensures strikethrough == old(strikethrough) && alignment == old(alignment) && fontSize == old(fontSize)
      ensures textColor == old(textColor) && backgroundColor == old(backgroundColor)
    {
      change := None;
      if linkUrl != "" {
        change := FormatText(Link, value, sel, Some(linkUrl), linkUrl);
        linkUrl := "";
        showLinkPopover := false;
      }
    }

    /** The link popover opening or closing. */
    method SetLinkPopover(open: bool)
      modifies this
      ensures showLinkPopover == open && linkUrl == old(linkUrl)
      ensures bold == old(bold) && italic == old(italic) && underline == old(underline) && strikethrough == old(strikethrough)
      ensures alignment == old(alignment) && fontSize == old(fontSize)
      ensures textColor == old(textColor) && backgroundColor == old(backgroundColor)
    {
      showLinkPopover := open;
    }

    /** Typing in the URL field. */
    method SetLinkUrl(url: string)
      modifies this
      ensures linkUrl == url && showLinkPopover == old(showLinkPopover)
      ensures bold == old(bold) && italic == old(italic) && underline == old(underline) && strikethrough == old(strikethrough)
      ensures alignment == old(alignment) && fontSize == old(fontSize)
      ensures textColor == old(textColor) && backgroundColor == old(backgroundColor)
    {
      linkUrl := url;
    }

    /** The alignment buttons. */
    method SetAlignment(a: string)
      requires a == "left" || a == "center" || a == "right"
      modifies this
      ensures alignment == a && fontSize == old(fontSize)
      ensures textColor == old(textColor) && backgroundColor == old(backgroundColor)
      ensures bold == old(bold) && italic == old(italic) && underline == old(underline) && strikethrough == old(strikethrough)
      ensures linkUrl == old(linkUrl) && showLinkPopover == old(showLinkPopover)
    {
      alignment := a;
    }

    /** The font-size select. */
    method SetFontSize(size: string)
      modifies this
      ensures fontSize == size && alignment == old(alignment)
      ensures textColor == old(textColor) && backgroundColor == old(backgroundColor)
      ensures bold == old(bold) && italic == old(italic) && underline == old(underline) && strikethrough == old(strikethrough)
      ensures linkUrl == old(linkUrl) && showLinkPopover == old(showLinkPopover)
    {
      fontSize := size;
    }

    /** The two colour inputs. */
    method SetColors(text: string, background: string)
      modifies this
      ensures textColor == text && backgroundColor == background
      ensures alignment == old(alignment) && fontSize == old(fontSize)
      ensures bold == old(bold) && italic == old(italic) && underline == old(underline) && strikethrough == old(strikethrough)
      ensures linkUrl == old(linkUrl) && showLinkPopover == old(showLinkPopover)
    {
      textColor := text;
      backgroundColor := background;
    }
  }

  /** Select "world" in "hello world" and press Bold: the parent receives
      "hello **world**" and Bold shows pressed. Releasing Bold afterwards
      leaves the text alone. */
  method BoldThenRelease() returns (first: Option<string>, second: Option<string>, pressed: bool)
    ensures first == Some("hello **world**")
    ensures second.None? && !pressed
  {
    var editor := new Editor();
    var value := "hello world";
    first := editor.Toggle(Bold, true, value, Some(Selection(6, 11)));
    assert value[..6] == "hello " && value[6..11] == "world" && value[11..] == "";
    assert "hello " + ("**" + "world" + "**") + "" == "hello **world**";
    second := editor.Toggle(Bold, false, "hello **world**", Some(Selection(8, 13)));
    pressed := editor.Pressed(Bold);
  }

  /** With an empty selection, Insert puts "[Link Text](url)" at the caret
      and resets the popover. */
  method InsertLinkAtCaret(value: string, caret: nat, url: string)
    returns (change: Option<string>, urlAfter: string, open: bool)
    requires caret <= |value| && url != ""
    ensures change == Some(value[..caret] + "[Link Text](" + url + ")" + value[caret..])
    ensures urlAfter == "" && !open
  {
    var editor := new Editor();
    editor.SetLinkPopover(true);
    editor.SetLinkUrl(url);
    change := editor.InsertLink(value, Some(Selection(caret, caret)));
    FormatAtCaret(Link, value, caret, Some(url), url);
    var link := Formatted(Link, "", Some(url), url);
    assert link == "[Link Text](" + url + ")";
    assert value[..caret] + link + value[caret..] == value[..caret] + "[Link Text](" + url + ")" + value[caret..];
    urlAfter := editor.linkUrl;
    open := editor.showLinkPopover;
  }
}

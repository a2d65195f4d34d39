/**
 * The post composer of src/components/PostEditor.tsx: a text area's content, the formatting and
 * emoji insertions at the selection, and submission. The textarea selection and the callbacks
 * to the page (`onAuthRequired`, `onPostCreated`) are modelled as a parameter and a result.
 */
module PostEditor {
  import opened Wrappers
  import opened Strings

  /** The textarea's selection: `selectionStart` and `selectionEnd`. */
  datatype Selection = Selection(start: nat, end: nat)

  /** What a handler asks of the outside world. */
  datatype Effect =
    | NoEffect
    | AuthRequired                 // onAuthRequired() was called
    | PostCreated(content: string) // onPostCreated(content) was called
    | CursorMoved(position: nat)   // the caret is placed at `position` after the update

  /** The text put between the markers: the selection when it is non-empty, else the placeholder. */
  function TextToInsert(content: string, start: nat, end: nat, placeholder: string): (t: string)
    requires start <= end <= |content|
    ensures t == (if content[start..end] != "" then content[start..end] else placeholder)
    ensures t == "" <==> start == end && placeholder == ""
  {
    if start < end then content[start..end] else placeholder
  }

  /** The content after wrapping the selection (or the placeholder) in `before` and `after`. */
  function InsertAround(content: string, start: nat, end: nat, before: string, after: string, placeholder: string): (r: string)
    requires start <= end <= |content|
    ensures var t := TextToInsert(content, start, end, placeholder);
      |r| == |content| - (end - start) + |before| + |t| + |after|
    ensures r[..start] == content[..start]
    ensures r[|r| - (|content| - end)..] == content[end..]
    ensures var t := TextToInsert(content, start, end, placeholder);
      r[start..start + |before| + |t| + |after|] == before + t + after
  {
    content[..start] + before + TextToInsert(content, start, end, placeholder) + after + content[end..]
  }

  /** Where the caret goes after an insertion: just past the inserted text, before `after`. */
  function CursorAfterInsert(content: string, start: nat, end: nat, before: string, after: string, placeholder: string): (pos: nat)
    requires start <= end <= |content|
    ensures pos <= |InsertAround(content, start, end, before, after, placeholder)|
    ensures InsertAround(content, start, end, before, after, placeholder)[pos..] == after + content[end..]
  {
    var r := InsertAround(content, start, end, before, after, placeholder);
    var pos := start + |before| + |TextToInsert(content, start, end, placeholder)|;
    assert r == (content[..start] + before + TextToInsert(content, start, end, placeholder)) + (after + content[end..]);
    pos
  }

  /** The content after inserting `emoji` at `start`. */
  function InsertAt(content: string, start: nat, emoji: string): (r: string)
    requires start <= |content|
    ensures |r| == |content| + |emoji|
    ensures r[..start] == content[..start] && r[start..start + |emoji|] == emoji
    ensures r[start + |emoji|..] == content[start..]
  {
    content[..start] + emoji + content[start..]
  }

  /** Removing the inserted emoji gives the original content back. */
  lemma InsertAtRoundTrip(content: string, start: nat, emoji: string)
    requires start <= |content|
    ensures var r := InsertAt(content, start, emoji); r[..start] + r[start + |emoji|..] == content
  {
  }

  /** An emoji insertion is the wrapping insertion with an empty selection, the emoji as `before`
      and nothing else. */
  lemma InsertAtIsInsertAround(content: string, start: nat, emoji: string)
    requires start <= |content|
    ensures InsertAt(content, start, emoji) == InsertAround(content, start, start, emoji, "", "")
    ensures CursorAfterInsert(content, start, start, emoji, "", "") == start + |emoji|
  {
    assert TextToInsert(content, start, start, "") == "";
    assert content[..start] + emoji + "" + "" + content[start..] == content[..start] + emoji + content[start..];
  }

  /** The (before, after, placeholder) triple of each toolbar format; any other name has none. */
  function FormatMarkers(kind: string): (r: Option<(string, string, string)>)
    ensures r.Some? <==> kind in {"bold", "italic", "underline", "code", "quote"}
  {
    if kind == "bold" then Some(("**", "**", "bold text"))
    else if kind == "italic" then Some(("*", "*", "italic text"))
    else if kind == "underline" then Some(("<u>", "</u>", "underlined text"))
    else if kind == "code" then Some(("`", "`", "code"))
    else if kind == "quote" then Some(("> ", "", "quoted text"))
    else None
  }

  /** Every format wraps: the placeholder is never empty, and only a quote has no closing marker. */
  lemma FormatsWrap(kind: string)
    requires FormatMarkers(kind).Some?
    ensures FormatMarkers(kind).value.2 != "" && FormatMarkers(kind).value.0 != ""
    ensures FormatMarkers(kind).value.1 == "" <==> kind == "quote"
  {
  }

  /** The Post button is enabled: there is non-blank content and someone is signed in. */
  function SubmitEnabled(content: string, isAuthenticated: bool): (r: bool)
    ensures r <==> isAuthenticated && exists i :: 0 <= i < |content| && !IsWhitespace(content[i])
  {
    !IsBlank(content) && isAuthenticated
  }

  class Editor {
    var content: string

    constructor ()
      ensures content == ""
    {
      content := "";
    }

    /** Submitting: ask for sign-in, or ignore blank content, or hand the content over once and clear. */
    method HandleSubmit(isAuthenticated: bool) returns (effect: Effect)
      modifies this
      ensures !isAuthenticated ==> effect == AuthRequired && content == old(content)
      ensures isAuthenticated && IsBlank(old(content)) ==> effect == NoEffect && content == old(content)
      ensures isAuthenticated && !IsBlank(old(content)) ==> effect == PostCreated(old(content)) && content == ""
      ensures effect.PostCreated? <==> SubmitEnabled(old(content), isAuthenticated)
    {
      if !isAuthenticated {
        return AuthRequired;
      }
      if IsBlank(content) {
        return NoEffect;
      }
      effect := PostCreated(content);
      content := "";
    }

    /** The Clear button. */
    method Clear()
      modifies this
      ensures content == ""
    {
      content := "";
    }

    /** Wraps the selection (or the placeholder) in `before` and `after` and moves the caret past
        the inserted text. Without sign-in it only asks for it; without a textarea it does nothing. */
    method InsertTextAtCursor(isAuthenticated: bool, textarea: Option<Selection>, before: string, after: string, placeholder: string)
      returns (effect: Effect)
      requires textarea.Some? ==> textarea.value.start <= textarea.value.end <= |content|
      modifies this
      ensures !isAuthenticated ==> effect == AuthRequired && content == old(content)
      ensures isAuthenticated && textarea.None? ==> effect == NoEffect && content == old(content)
      ensures isAuthenticated && textarea.Some? ==>
        var sel := textarea.value;
        content == InsertAround(old(content), sel.start, sel.end, before, after, placeholder) &&
        effect == CursorMoved(CursorAfterInsert(old(content), sel.start, sel.end, before, after, placeholder))
    {
      if !isAuthenticated {
        return AuthRequired;
      }
      if textarea.None? {
        return NoEffect;
      }
      var start := textarea.value.start;
      var end := textarea.value.end;
      var selectedText := content[start..end];
      var textToInsert := if selectedText != "" then selectedText else placeholder;
      var newContent := content[..start] + before + textToInsert + after + content[end..];
      content := newContent;
      effect := CursorMoved(start + |before| + |textToInsert|);
    }

    /** A toolbar button: one of the five formats wraps the selection; any other name does nothing. */
    method HandleFormatting(kind: string, isAuthenticated: bool, textarea: Option<Selection>) returns (effect: Effect)
      requires textarea.Some? ==> textarea.value.start <= textarea.value.end <= |content|
      modifies this
      ensures FormatMarkers(kind).None? ==> effect == NoEffect && content == old(content)
      ensures FormatMarkers(kind).Some? && !isAuthenticated ==> effect == AuthRequired && content == old(content)
      ensures FormatMarkers(kind).Some? && isAuthenticated && textarea.None? ==> effect == NoEffect && content == old(content)
      ensures FormatMarkers(kind).Some? && isAuthenticated && textarea.Some? ==>
        var (before, after, placeholder) := FormatMarkers(kind).value;
        var sel := textarea.value;
        content == InsertAround(old(content), sel.start, sel.end, before, after, placeholder) &&
        effect == CursorMoved(CursorAfterInsert(old(content), sel.start, sel.end, before, after, placeholder))
    {
      var markers := FormatMarkers(kind);
      if markers.None? {
        return NoEffect;
      }
      var (before, after, placeholder) := markers.value;
      effect := InsertTextAtCursor(isAuthenticated, textarea, before, after, placeholder);
    }

    /** Inserts the picked emoji at the selection start and puts the caret right after it. */
    method HandleEmojiSelect(emoji: string, isAuthenticated: bool, textarea: Option<Selection>) returns (effect: Effect)
      requires textarea.Some? ==> textarea.value.start <= textarea.value.end <= |content|
      modifies this
      ensures !isAuthenticated ==> effect == AuthRequired && content == old(content)
      ensures isAuthenticated && textarea.None? ==> effect == NoEffect && content == old(content)
      ensures isAuthenticated && textarea.Some? ==>
        content == InsertAt(old(content), textarea.value.start, emoji) &&
        |content| == |old(content)| + |emoji| &&
        effect == CursorMoved(textarea.value.start + |emoji|)
    {
      if !isAuthenticated {
        return AuthRequired;
      }
      if textarea.None? {
        return NoEffect;
      }
      var start := textarea.value.start;
      var newContent := content[..start] + emoji + content[start..];
      content := newContent;
      effect := CursorMoved(start + |emoji|);
    }
  }
}

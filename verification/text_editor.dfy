/**
 * The editor panel (src/components/TextEditor.tsx): a textarea whose
 * changes go to `onTextChange`, and one button per rewrite style, each
 * sending its style directive to `onImprove`. The component keeps no state
 * of its own; it is modelled as the function from its props and a user
 * action to the callback that action fires.
 */
module TextEditor {
  import opened Options
  import opened JsText

  /** A row of the `styleButtons` table: its `label` (here `name`, as `label` is a Dafny keyword) and its `style`; the CSS class is left out. */
  datatype StyleButton = StyleButton(name: string, style: string)

  const StyleButtons: seq<StyleButton> := [
    StyleButton("Improve Text",
      "Improve this text by enhancing grammar, sentence structure, and overall clarity while maintaining the original meaning. Only return the improved text."),
    StyleButton("Make Concise",
      "Rewrite this text to be as concise as possible while maintaining all key information and meaning. Remove any redundancy and unnecessary words. Only return the shortened text."),
    StyleButton("Make Professional", "Make my text formal and professional"),
    StyleButton("Make Funny", "Make my text funny and witty"),
    StyleButton("Make Casual", "Make my text casual and friendly"),
    StyleButton("Mario Style", "Make my text sound like Mario"),
    StyleButton("Homer Style", "Make my text sound like Homer Simpson")
  ]

  /** The props the editor reads (the callbacks are the `Callback` values). */
  datatype Props = Props(text: string, isProcessing: bool)

  /** What the user does in the panel. */
  datatype UserAction = Type(value: string) | Click(button: nat)

  /** The callback an action fires, with its argument. */
  datatype Callback = OnTextChange(text: string) | OnImprove(style: string)

  /** The `disabled` attribute of every style button: busy, or nothing but
      whitespace in the text. */
  predicate IsDisabled(p: Props)
    ensures IsDisabled(p) <==> p.isProcessing || AllWs(p.text)
  {
    TrimEmptyIff(p.text);
    p.isProcessing || Trim(p.text) == []
  }

  /** The caption of a style button. No label of the table reads
      "Improving...", so a table button shows its label exactly when the
      editor is idle. */
  function Caption(b: StyleButton, isProcessing: bool): (c: string)
    ensures b in StyleButtons ==> (c == b.name <==> !isProcessing)
  {
    if isProcessing then "Improving..." else b.name
  }

  /** The callback a user action fires: a textarea change forwards its new
      value; a click on an enabled button forwards that button's style; a
      click on a disabled (or absent) button fires nothing. */
  function Dispatch(p: Props, a: UserAction): (cb: Option<Callback>)
    ensures a.Type? ==> cb == Some(OnTextChange(a.value))
    ensures a.Click? ==> (cb.Some? <==> a.button < |StyleButtons| && !IsDisabled(p))
    ensures a.Click? && cb.Some? ==> cb.value == OnImprove(StyleButtons[a.button].style)
  {
    match a
    case Type(v) => Some(OnTextChange(v))
    case Click(i) =>
      if i < |StyleButtons| && !IsDisabled(p) then Some(OnImprove(StyleButtons[i].style))
      else None
  }

  /** The buttons are enabled exactly when the editor is idle and the text
      has a character that is not whitespace. */
  lemma EnabledIff(p: Props)
    ensures !IsDisabled(p) <==>
      !p.isProcessing && exists k :: 0 <= k < |p.text| && !IsWs(p.text[k])
  {
    TrimEmptyIff(p.text);
  }

  /** Every improvement request the editor sends carries one of the seven
      fixed directives, on a text that is not blank, from an idle editor. */
  lemma ImproveComesFromTable(p: Props, a: UserAction, style: string)
    requires Dispatch(p, a) == Some(OnImprove(style))
    ensures exists i :: 0 <= i < |StyleButtons| && StyleButtons[i].style == style
    ensures !p.isProcessing && !AllWs(p.text)
  {
    TrimEmptyIff(p.text);
    assert StyleButtons[a.button].style == style;
  }

  /** The table has seven rows; the labels, which serve as React keys, are
      pairwise distinct, and so are the directives. */
  lemma StyleTableWellFormed()
    ensures |StyleButtons| == 7
    ensures forall i, j :: 0 <= i < j < |StyleButtons| ==>
      StyleButtons[i].name != StyleButtons[j].name
      && StyleButtons[i].style != StyleButtons[j].style
  {
  }
}

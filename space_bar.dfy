/**
 * The renderer's keydown listener that stops the space bar from scrolling the
 * page, except where the key is typed into something editable.
 */
module SpaceBar {
  import opened Wrappers

  /** The parts of `evt.target` the listener reads: its tag name and its `role` attribute. */
  datatype Target = Target(tagName: Option<string>, role: Option<string>)

  /** A keydown event: its target, which may be missing, and its key code. */
  datatype KeyDown = KeyDown(target: Option<Target>, keyCode: int)

  /** Tags whose elements take typed text, so the space must reach them. */
  const InputTags: seq<string> := ["INPUT", "TEXTAREA", "SELECT", "EMBED"]

  const SpaceKeyCode := 32

  /**
   * Whether `killSpaceBar` calls `evt.preventDefault()`. A missing target
   * behaves as an empty object: no tag name and no `role`.
   */
  function KillSpaceBar(evt: KeyDown): (preventDefault: bool)
    ensures preventDefault <==>
      && evt.keyCode == 32
      && evt.target.Some?
      && evt.target.value.tagName.Some?
      && evt.target.value.tagName.value != ""
      && evt.target.value.tagName.value !in InputTags
      && evt.target.value.role != Some("textbox")
  {
    var target := evt.target.GetOr(Target(None, None));
    var isInput :=
      target.tagName == Some("INPUT") ||
      target.tagName == Some("TEXTAREA") ||
      target.tagName == Some("SELECT") ||
      target.tagName == Some("EMBED");
    if isInput || target.tagName == None || target.tagName == Some("") then false
    else if target.role == Some("textbox") then false
    else evt.keyCode == SpaceKeyCode
  }

  /** Keys other than the space bar are never suppressed, whatever their target. */
  lemma OtherKeysPassThrough(evt: KeyDown)
    requires evt.keyCode != SpaceKeyCode
    ensures !KillSpaceBar(evt)
  {
  }

  /** On a form control or a `role="textbox"` element the space bar keeps its default action. */
  lemma EditableTargetsKeepSpace(tag: string, role: Option<string>, keyCode: int)
    requires tag in InputTags || role == Some("textbox")
    ensures !KillSpaceBar(KeyDown(Some(Target(Some(tag), role)), keyCode))
  {
  }
}

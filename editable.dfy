/**
 * The `v-contenteditable` directive: on mount it shows the bound value and
 * listens for focus, input, keydown and blur; blur commits the edited text
 * through `onUpdate`, after the `.trim`, `.uppercase` and `.lowercase`
 * modifiers. Used with an argument (`v-contenteditable:x`) it does nothing.
 *
 * The element's `innerText` is `shown`; the closure variables `original` and
 * `draft` are fields; the values passed to `onUpdate` are recorded, in order,
 * in `updates`. Every listener is a transition of `View`, and each method of
 * `ContentEditable` is proved to perform its transition.
 */
module Editable {
  import opened Wrappers
  import opened Strings

  /** The directive's modifiers: `.trim`, `.uppercase`, `.lowercase` and `.default`. */
  datatype Modifiers = Modifiers(trim: bool, uppercase: bool, lowercase: bool, useDefault: bool)

  /** The bound `value`: a ref (read through `.value`) or a plain, possibly missing, string. */
  datatype Raw = RefValue(current: string) | PlainValue(given: Option<string>)

  const DefaultTitle := "Untitled"

  /** `binding.modifiers.default ? 'Untitled' : ''`. */
  function DefaultText(m: Modifiers): string {
    if m.useDefault then DefaultTitle else ""
  }

  /** `a || b` on strings: `b` when `a` is empty. */
  function JsOr(a: string, b: string): string {
    if a != "" then a else b
  }

  /** `getModel`: a ref's value `|| defaultText`, a plain value `?? defaultText`. */
  function GetModel(raw: Raw, defaultText: string): (r: string)
    ensures r == "" ==> defaultText == "" || (raw.PlainValue? && raw.given == Some(""))
    ensures raw.RefValue? && raw.current != "" ==> r == raw.current
    ensures raw == PlainValue(None) ==> r == defaultText
  {
    match raw
    case RefValue(v) => JsOr(v, defaultText)
    case PlainValue(v) => if v.Some? then v.value else defaultText
  }

  /** The text `updated` wants shown: the new value `?? defaultText` (an empty ref value stays empty). */
  function NewText(raw: Raw, defaultText: string): (r: string)
    ensures raw.RefValue? ==> r == raw.current
    ensures raw.PlainValue? ==> r == (if raw.given.Some? then raw.given.value else defaultText)
  {
    match raw
    case RefValue(v) => v
    case PlainValue(v) => if v.Some? then v.value else defaultText
  }

  // ---------------------------------------------------------------- modifiers

  /** `applyModifiers`: trim, then upper-case, then lower-case, each only when asked for. */
  function ApplyModifiers(m: Modifiers, text: string): (r: string)
    ensures |r| <= |text|
    ensures !m.trim && !m.uppercase && !m.lowercase ==> r == text
  {
    var t1 := if m.trim then Trim(text) else text;
    var t2 := if m.uppercase then Upper(t1) else t1;
    if m.lowercase then Lower(t2) else t2
  }

  /** The result has no surrounding whitespace under `.trim` and is in the case asked for. */
  lemma ModifiedTextShape(m: Modifiers, text: string)
    ensures var r := ApplyModifiers(m, text);
      && (m.trim ==> Trimmed(r))
      && (m.lowercase ==> Lower(r) == r)
      && (m.uppercase && !m.lowercase ==> Upper(r) == r)
  {
    var t1 := if m.trim then Trim(text) else text;
    var t2 := if m.uppercase then Upper(t1) else t1;
    if m.trim {
      CaseKeepsTrimmed(t1);
      CaseKeepsTrimmed(t2);
    }
    LowerIdempotent(t2);
    UpperIdempotent(t1);
  }

  /** Applying the modifiers to their own result changes nothing. */
  lemma ApplyModifiersIdempotent(m: Modifiers, text: string)
    ensures ApplyModifiers(m, ApplyModifiers(m, text)) == ApplyModifiers(m, text)
  {
    var r := ApplyModifiers(m, text);
    ModifiedTextShape(m, text);
    var t1 := if m.trim then Trim(r) else r;
    if m.trim {
      TrimOfTrimmed(r);
    }
    assert t1 == r;
    if m.uppercase && m.lowercase {
      LowerAfterUpper(r);
    }
  }

  /** What blur hands to `onUpdate`: the processed draft, or the default text in place of ''. */
  function Commit(m: Modifiers, defaultText: string, draft: string): (r: string)
    ensures defaultText != "" ==> r != ""
    ensures ApplyModifiers(m, draft) != "" ==> r == ApplyModifiers(m, draft)
    ensures ApplyModifiers(m, draft) == "" ==> r == defaultText
  {
    var processed := ApplyModifiers(m, JsOr(draft, ""));
    if processed == "" && defaultText != "" then defaultText else processed
  }

  /**
   * Committing a committed value again gives it back, unless it was the
   * default text and the modifiers change it.
   */
  lemma CommitStable(m: Modifiers, defaultText: string, draft: string)
    requires ApplyModifiers(m, draft) != "" || ApplyModifiers(m, defaultText) == defaultText
    ensures Commit(m, defaultText, Commit(m, defaultText, draft)) == Commit(m, defaultText, draft)
  {
    ApplyModifiersIdempotent(m, draft);
  }

  /**
   * With `.default` and `.uppercase`, a blank commit shows 'Untitled'; editing
   * nothing and blurring again commits 'UNTITLED'.
   */
  lemma PlaceholderRecased(draft: string)
    requires Trim(draft) == ""
    ensures var m := Modifiers(true, true, false, true);
      && Commit(m, DefaultText(m), draft) == DefaultTitle
      && Commit(m, DefaultText(m), Commit(m, DefaultText(m), draft)) == "UNTITLED"
  {
    var m := Modifiers(true, true, false, true);
    assert Trimmed(DefaultTitle);
    TrimOfTrimmed(DefaultTitle);
    assert Upper(DefaultTitle) == "UNTITLED";
  }

  // ---------------------------------------------------------------- transitions

  /** What mounting fixes: whether the directive is in use, its modifiers and default text. */
  datatype Config = Config(active: bool, mods: Modifiers, defaultText: string)

  /** The element's text, the two closure variables and the values sent to `onUpdate`. */
  datatype View = View(shown: string, original: string, draft: string, updates: seq<string>)

  function MountConfig(arg: Option<string>, m: Modifiers): (c: Config)
    ensures c.active <==> arg.None?
    ensures c.mods == m
    ensures c.defaultText == (if m.useDefault then DefaultTitle else "")
  {
    Config(arg.None?, m, DefaultText(m))
  }

  /** `mounted`: show `original || defaultText`; with an argument the element keeps its `text`. */
  function MountView(arg: Option<string>, raw: Raw, m: Modifiers, text: string): (v: View)
    ensures arg.Some? ==> v.shown == text && v.updates == []
    ensures arg.None? ==> var o := GetModel(raw, DefaultText(m));
      && v.original == o && v.draft == o && v.updates == []
      && v.shown == JsOr(o, DefaultText(m))
  {
    if arg.Some? then View(text, "", "", [])
    else
      var original := GetModel(raw, DefaultText(m));
      View(JsOr(original, DefaultText(m)), original, original, [])
  }

  /** The focus listener: the draft becomes the element's text. */
  function FocusStep(c: Config, v: View): (r: View)
    ensures r.shown == v.shown && r.original == v.original && r.updates == v.updates
    ensures r.draft == if c.active then v.shown else v.draft
  {
    if !c.active then v else v.(draft := v.shown)
  }

  /** Typing: the browser replaces the text, and the input listener copies it into the draft. */
  function InputStep(c: Config, v: View, text: string): (r: View)
    ensures r.original == v.original && r.updates == v.updates
    ensures c.active ==> r.shown == text && r.draft == text
    ensures !c.active ==> r == v
  {
    if !c.active then v else v.(shown := text, draft := text)
  }

  /** The blur listener: commit the draft, show the default text in place of an empty commit. */
  function BlurStep(c: Config, v: View): (r: View)
    ensures r.draft == v.draft
    ensures !c.active ==> r == v
    ensures c.active ==> r.updates == v.updates + [r.original] && r.original == Commit(c.mods, c.defaultText, v.draft)
    ensures c.active ==> r.shown == v.shown || r.shown == c.defaultText
  {
    if !c.active then v
    else
      var committed := Commit(c.mods, c.defaultText, v.draft);
      var blank := ApplyModifiers(c.mods, v.draft) == "" && c.defaultText != "";
      View(if blank then c.defaultText else v.shown, committed, v.draft, v.updates + [committed])
  }

  /** The keydown listener: Enter blurs; Escape first restores `original || defaultText`, then blurs. */
  function KeyStep(c: Config, v: View, key: string): (r: View)
    ensures r.draft == v.draft
    ensures !c.active || (key != "Enter" && key != "Escape") ==> r == v
    ensures c.active && (key == "Enter" || key == "Escape") ==>
      r.updates == v.updates + [Commit(c.mods, c.defaultText, v.draft)] && r.original == Commit(c.mods, c.defaultText, v.draft)
  {
    if !c.active then v
    else if key == "Enter" then BlurStep(c, v)
    else if key == "Escape" then BlurStep(c, v.(shown := JsOr(v.original, c.defaultText)))
    else v
  }

  /** `updated`: show `newValue ?? defaultText` when it differs; with an argument, nothing. */
  function UpdatedStep(v: View, arg: Option<string>, raw: Raw, m: Modifiers): (r: View)
    ensures r.original == v.original && r.draft == v.draft && r.updates == v.updates
    ensures arg.Some? ==> r == v
    ensures arg.None? ==> r.shown == NewText(raw, DefaultText(m))
  {
    if arg.Some? then v
    else
      var text := NewText(raw, DefaultText(m));
      if v.shown != text then v.(shown := text) else v
  }

  /** The directive keeps: `original` is the last committed value, and an unused one never commits. */
  predicate Coherent(c: Config, v: View) {
    (c.active ==> v.updates == [] || v.original == v.updates[|v.updates| - 1])
    && (!c.active ==> v.updates == [])
  }

  // ---------------------------------------------------------------- properties

  /** With an argument the directive registers nothing: no event changes anything. */
  lemma ArgumentDisables(arg: Option<string>, raw: Raw, m: Modifiers, v: View, text: string, key: string)
    requires arg.Some?
    ensures var c := MountConfig(arg, m);
      && FocusStep(c, v) == v && InputStep(c, v, text) == v && BlurStep(c, v) == v
      && KeyStep(c, v, key) == v && UpdatedStep(v, arg, raw, m) == v
  {
  }

  /** Every transition keeps the directive coherent, starting from the mount. */
  lemma TransitionsKeepCoherent(c: Config, v: View, text: string, key: string, arg: Option<string>, raw: Raw, m: Modifiers)
    requires Coherent(c, v)
    ensures Coherent(c, FocusStep(c, v)) && Coherent(c, InputStep(c, v, text))
    ensures Coherent(c, BlurStep(c, v)) && Coherent(c, KeyStep(c, v, key))
    ensures Coherent(c, UpdatedStep(v, arg, raw, m))
  {
  }

  lemma MountIsCoherent(arg: Option<string>, raw: Raw, m: Modifiers, text: string)
    ensures Coherent(MountConfig(arg, m), MountView(arg, raw, m, text))
  {
  }

  /** Focus and input set the draft to the text on screen and touch nothing else. */
  lemma FocusAndInputSetDraft(c: Config, v: View, text: string)
    requires c.active
    ensures FocusStep(c, v) == View(v.shown, v.original, v.shown, v.updates)
    ensures InputStep(c, v, text) == View(text, v.original, text, v.updates)
  {
  }

  /** Enter does exactly what blur does; other keys but Escape do nothing. */
  lemma EnterOnlyBlurs(c: Config, v: View, key: string)
    ensures KeyStep(c, v, "Enter") == BlurStep(c, v)
    ensures key != "Enter" && key != "Escape" ==> KeyStep(c, v, key) == v
  {
  }

  /** Blur commits the processed draft once and remembers it as `original`. */
  lemma BlurCommits(c: Config, v: View)
    requires c.active
    ensures var w := BlurStep(c, v);
      && w.updates == v.updates + [Commit(c.mods, c.defaultText, v.draft)]
      && w.original == Commit(c.mods, c.defaultText, v.draft)
      && w.draft == v.draft
      && w.shown == (if ApplyModifiers(c.mods, v.draft) == "" && c.defaultText != "" then c.defaultText else v.shown)
  {
  }

  /**
   * Escape restores the text on screen but not the draft: the blur that
   * follows still commits the edited draft, not `original`.
   */
  lemma EscapeCommitsEditedDraft(c: Config, v: View)
    requires c.active
    ensures var w := KeyStep(c, v, "Escape");
      && w.updates == v.updates + [Commit(c.mods, c.defaultText, v.draft)]
      && w.original == Commit(c.mods, c.defaultText, v.draft)
      && (ApplyModifiers(c.mods, v.draft) != "" || c.defaultText == "" ==> w.shown == JsOr(v.original, c.defaultText))
  {
  }

  /** An edit undone with Escape still reaches `onUpdate`. */
  lemma EscapeDoesNotDiscard(c: Config, v: View, text: string)
    requires c.active && c.mods == Modifiers(false, false, false, false) && c.defaultText == ""
    requires text != v.original
    ensures KeyStep(c, InputStep(c, v, text), "Escape").original == text
    ensures KeyStep(c, InputStep(c, v, text), "Escape").shown == v.original
  {
  }

  /** `updated` only ever rewrites the text on screen, and only to the new value. */
  lemma UpdatedShowsNewValue(v: View, raw: Raw, m: Modifiers)
    ensures var w := UpdatedStep(v, None, raw, m);
      && w.shown == NewText(raw, DefaultText(m))
      && w.original == v.original && w.draft == v.draft && w.updates == v.updates
  {
  }

  // ---------------------------------------------------------------- the directive on one element

  class ContentEditable {
    const active: bool
    const mods: Modifiers
    const defaultText: string
    var shown: string
    var original: string
    var draft: string
    var updates: seq<string>

    function Settings(): Config {
      Config(active, mods, defaultText)
    }

    function Snapshot(): View
      reads this
    {
      View(shown, original, draft, updates)
    }

    /** `mounted` on an element whose text is `text`. */
    constructor (arg: Option<string>, raw: Raw, m: Modifiers, text: string)
      ensures Settings() == MountConfig(arg, m)
      ensures Snapshot() == MountView(arg, raw, m, text)
    {
      active := arg.None?;
      mods := m;
      defaultText := DefaultText(m);
      if arg.Some? {
        shown, original, draft, updates := text, "", "", [];
      } else {
        var model := GetModel(raw, DefaultText(m));
        original := model;
        draft := model;
        shown := JsOr(model, DefaultText(m));
        updates := [];
      }
    }

    method Focus()
      modifies this
      ensures Snapshot() == FocusStep(Settings(), old(Snapshot()))
    {
      if active {
        draft := shown;
      }
    }

    method Input(text: string)
      modifies this
      ensures Snapshot() == InputStep(Settings(), old(Snapshot()), text)
    {
      if active {
        shown := text;
        draft := text;
      }
    }

    method Blur()
      modifies this
      ensures Snapshot() == BlurStep(Settings(), old(Snapshot()))
    {
      if active {
        var processed := ApplyModifiers(mods, JsOr(draft, ""));
        if processed == "" && defaultText != "" {
          processed := defaultText;
          shown := defaultText;
        }
        updates := updates + [processed];
        original := processed;
      }
    }

    method KeyDown(key: string)
      modifies this
      ensures Snapshot() == KeyStep(Settings(), old(Snapshot()), key)
    {
      if active {
        if key == "Enter" {
          Blur();
        } else if key == "Escape" {
          shown := JsOr(original, defaultText);
          Blur();
        }
      }
    }

    /** `updated`, with the binding's current argument, value and modifiers. */
    method Updated(arg: Option<string>, raw: Raw, m: Modifiers)
      modifies this
      ensures Snapshot() == UpdatedStep(old(Snapshot()), arg, raw, m)
    {
      if arg.None? {
        var text := NewText(raw, DefaultText(m));
        if shown != text {
          shown := text;
        }
      }
    }
  }
}

/**
 * The cascade: a view element's stylesheets, in the order the element lists them, then its inline
 * style, merged into one computed style.
 */
module Controllers {
  import opened Wrappers
  import opened Ui
  import opened Exprs
  import opened Computed
  import opened ElementStyles
  import F = Fields

  /** The styling inputs of a view element: its stylesheet handles and its optional inline style. */
  datatype ViewElement = ViewElement(stylesetHandles: seq<Handle>, inlineStyle: Option<ElementStyle>)

  /** The attributes of the loaded stylesheets among `handles`, in the order of `handles`; missing ones contribute nothing. */
  function SheetAttrs(handles: seq<Handle>, assets: map<Handle, ElementStyle>): seq<ElementStyleAttr>
    decreases |handles|
  {
    if handles == [] then []
    else
      var h := handles[|handles| - 1];
      SheetAttrs(handles[..|handles| - 1], assets) + (if h in assets then assets[h].attrs else [])
  }

  /** The attributes of the inline style, if there is one. */
  function InlineAttrs(inline: Option<ElementStyle>): seq<ElementStyleAttr> {
    if inline.Some? then inline.value.attrs else []
  }

  /** The computed style a view element gets from `computed`: stylesheets first, inline style last. */
  function Cascade(view: ViewElement, assets: map<Handle, ElementStyle>, computed: ComputedStyle, ev: Evaluator): ComputedStyle {
    Merge(SheetAttrs(view.stylesetHandles, assets) + InlineAttrs(view.inlineStyle), computed, ev)
  }

  /** Merge each loaded stylesheet of the element in turn, skipping those with no asset, then the inline style. */
  method ComputeStyle(view: ViewElement, assets: map<Handle, ElementStyle>, computed: ComputedStyle, ev: Evaluator)
    returns (out: ComputedStyle)
    ensures out == Cascade(view, assets, computed, ev)
  {
    var handles := view.stylesetHandles;
    out := computed;
    var i := 0;
    while i < |handles|
      invariant 0 <= i <= |handles|
      invariant out == Merge(SheetAttrs(handles[..i], assets), computed, ev)
    {
      assert handles[..i + 1][..i] == handles[..i];
      assert SheetAttrs(handles[..i + 1], assets)
          == SheetAttrs(handles[..i], assets) + (if handles[i] in assets then assets[handles[i]].attrs else []);
      if handles[i] in assets {
        out := ApplyTo(assets[handles[i]], out, ev);
        MergeAppend(SheetAttrs(handles[..i], assets), assets[handles[i]].attrs, computed, ev);
      } else {
        assert SheetAttrs(handles[..i], assets) + [] == SheetAttrs(handles[..i], assets);
      }
      i := i + 1;
    }
    assert handles[..i] == handles;
    if view.inlineStyle.Some? {
      out := ApplyTo(view.inlineStyle.value, out, ev);
    } else {
      assert InlineAttrs(view.inlineStyle) == [];
    }
    MergeAppend(SheetAttrs(handles, assets), InlineAttrs(view.inlineStyle), computed, ev);
  }

  /** Restyle an element from the default computed style, so nothing computed earlier carries over. */
  method UpdateStyles(view: ViewElement, assets: map<Handle, ElementStyle>, ev: Evaluator) returns (out: ComputedStyle)
    ensures out == Cascade(view, assets, DefaultComputedStyle, ev)
  {
    out := ComputeStyle(view, assets, DefaultComputedStyle, ev);
  }

  /** The stylesheets of a concatenated handle list are those of the first part followed by those of the second. */
  lemma {:induction false} SheetAttrsAppend(h1: seq<Handle>, h2: seq<Handle>, assets: map<Handle, ElementStyle>)
    ensures SheetAttrs(h1 + h2, assets) == SheetAttrs(h1, assets) + SheetAttrs(h2, assets)
    decreases |h2|
  {
    if h2 == [] {
      assert h1 + h2 == h1;
    } else {
      var front := h2[..|h2| - 1];
      assert (h1 + h2)[..|h1 + h2| - 1] == h1 + front;
      assert (h1 + h2)[|h1 + h2| - 1] == h2[|h2| - 1];
      SheetAttrsAppend(h1, front, assets);
    }
  }

  /** A handle with no loaded asset is skipped, and the stylesheets after it are still applied. */
  lemma MissingSheetSkipped(handles: seq<Handle>, i: nat, assets: map<Handle, ElementStyle>)
    requires i < |handles| && handles[i] !in assets
    ensures SheetAttrs(handles, assets) == SheetAttrs(handles[..i] + handles[i + 1..], assets)
  {
    assert handles == handles[..i] + ([handles[i]] + handles[i + 1..]);
    SheetAttrsAppend(handles[..i], [handles[i]] + handles[i + 1..], assets);
    SheetAttrsAppend([handles[i]], handles[i + 1..], assets);
    assert [handles[i]][..0] == [];
    SheetAttrsAppend(handles[..i], handles[i + 1..], assets);
  }

  /** A later stylesheet is merged on top of an earlier one. */
  lemma LaterSheetOnTop(handles: seq<Handle>, h: Handle, assets: map<Handle, ElementStyle>, computed: ComputedStyle, ev: Evaluator)
    requires h in assets
    ensures Cascade(ViewElement(handles + [h], None), assets, computed, ev)
            == Merge(assets[h].attrs, Cascade(ViewElement(handles, None), assets, computed, ev), ev)
  {
    SheetAttrsAppend(handles, [h], assets);
    assert [h][..0] == [];
    assert SheetAttrs(handles + [h], assets) + [] == SheetAttrs(handles + [h], assets);
    assert SheetAttrs(handles, assets) + [] == SheetAttrs(handles, assets);
    MergeAppend(SheetAttrs(handles, assets), assets[h].attrs, computed, ev);
  }

  /**
   * The inline style outranks every stylesheet: a field the inline style writes ends up with the
   * inline value, whatever the stylesheets and the starting style hold.
   */
  lemma InlineWins(
    view: ViewElement, i: nat, f: F.Field, v: F.Value,
    assets: map<Handle, ElementStyle>, computed: ComputedStyle, ev: Evaluator)
    requires view.inlineStyle.Some? && i < |view.inlineStyle.value.attrs|
    requires forall c :: F.Get(ApplyAttr(view.inlineStyle.value.attrs[i], c, ev), f) == v
    requires forall j :: i < j < |view.inlineStyle.value.attrs| ==> !Writes(view.inlineStyle.value.attrs[j], ev, f)
    ensures F.Get(Cascade(view, assets, computed, ev), f) == v
  {
    var sheets := SheetAttrs(view.stylesetHandles, assets);
    MergeAppend(sheets, view.inlineStyle.value.attrs, computed, ev);
    LastWriteWins(view.inlineStyle.value.attrs, i, f, v, Merge(sheets, computed, ev), ev);
  }
}

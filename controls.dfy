/** The wavelength-list panel of `controls.py`: an ordered list of
    wavelengths shown as one slider row per entry and an Add button, with
    enable rules that keep the list between 1 and 10 entries as long as
    the panel is the only one holding its list. The buttons fix what they
    do when they are built, so a second panel on the same list object can
    act on stale rows and break that bound. */
module Controls {
  import opened Optional
  import opened Handlers
  import opened PyList

  /** What pressing the Add button appends. */
  const AddedWavelength: real := 5.0
  /** The Add button is disabled from this many entries on. */
  const MaxWavelengths: nat := 10

  /** `disabled=(ni>=10)` of the Add button. */
  predicate AddDisabled(n: nat) { n >= MaxWavelengths }

  /** `disabled=(idx==0 and ni==1)` of the remove button of row `idx`. */
  predicate RemoveDisabled(idx: nat, n: nat) { idx == 0 && n == 1 }

  /** One child of the panel's container. A slider row shows entry `index`
      (its label is lambda_index), its remove button deletes entry `removes`
      and, once bound, the slider's observer updates entry `observer`. */
  datatype Widget =
    | SliderRow(index: nat, value: real, removeDisabled: bool, removes: nat, observer: Option<nat>)
    | AddButton(disabled: bool)

  /** The container's children for the list `xs`: one bound slider row per
      entry, then the Add button. */
  function Layout(xs: seq<real>): seq<Widget>
  {
    seq(|xs|, i requires 0 <= i < |xs| =>
      SliderRow(i, xs[i], RemoveDisabled(i, |xs|), i, Some(i)))
    + [AddButton(AddDisabled(|xs|))]
  }

  /** The children still match a list of `n` entries in everything but the
      slider values (a slider shows its own value after it is dragged). */
  predicate Current(ws: seq<Widget>, n: nat)
  {
    && |ws| == n + 1
    && (forall i :: 0 <= i < n ==>
          ws[i].SliderRow? && ws[i].index == i && ws[i].removes == i
          && ws[i].observer == Some(i) && ws[i].removeDisabled == RemoveDisabled(i, n))
    && ws[n] == AddButton(AddDisabled(n))
  }

  /** One row per entry followed by exactly one Add button; row `i` shows,
      removes and observes entry `i`. */
  lemma LayoutShape(xs: seq<real>)
    ensures Current(Layout(xs), |xs|)
    ensures forall i :: 0 <= i < |xs| ==> Layout(xs)[i].value == xs[i]
    ensures forall i :: 0 <= i <= |xs| ==> (Layout(xs)[i].AddButton? <==> i == |xs|)
  {
  }

  /** The list after pressing child `k` of a current layout of `xs`: the
      Add button appends 5 unless disabled, an enabled remove button
      deletes its own entry, a disabled button does nothing. */
  function Pressed(xs: seq<real>, k: nat): seq<real>
  {
    if k < |xs| then
      if RemoveDisabled(k, |xs|) then xs else xs[..k] + xs[k + 1..]
    else if k == |xs| && !AddDisabled(|xs|) then xs + [AddedWavelength]
    else xs
  }

  /** What a click on the widget `w`, as it was built, does to the list
      `xs` the panel holds now: an enabled Add button appends 5, an enabled
      remove button pops the entry it was built for (`None` where `pop`
      raises because that entry is gone), a disabled button does nothing. */
  function Click(xs: seq<real>, w: Widget): Option<seq<real>>
  {
    match w
    case AddButton(disabled) => Some(if disabled then xs else xs + [AddedWavelength])
    case SliderRow(_, _, removeDisabled, removes, _) =>
      if removeDisabled then Some(xs)
      else if removes < |xs| then Some(xs[..removes] + xs[removes + 1..])
      else None
  }

  /** The button of `w` reacts to a click. */
  predicate Enabled(w: Widget)
  {
    if w.AddButton? then !w.disabled else !w.removeDisabled
  }

  /** On a layout that matches the list, a click never fails and does what
      `Pressed` says. */
  lemma ClickOnCurrentLayout(xs: seq<real>, ws: seq<Widget>, k: nat)
    requires Current(ws, |xs|) && k < |ws|
    ensures Click(xs, ws[k]) == Some(Pressed(xs, k))
  {
  }

  /** Pressing the enabled Add button appends exactly one 5. */
  lemma AddAppendsFive(xs: seq<real>)
    requires |xs| < MaxWavelengths
    ensures Pressed(xs, |xs|) == xs + [5.0]
    ensures |Pressed(xs, |xs|)| == |xs| + 1
  {
  }

  /** Add is disabled exactly at 10 or more entries; remove is disabled
      exactly for the only row of a one-entry list. */
  lemma EnableRules(xs: seq<real>, k: nat)
    requires k <= |xs|
    ensures k == |xs| ==> (Pressed(xs, k) == xs <==> |xs| >= 10)
    ensures k < |xs| ==> (|Pressed(xs, k)| == |xs| <==> |xs| == 1)
  {
  }

  /** One press never empties a non-empty list and never grows it past
      ten entries or past its own length. */
  lemma PressBounds(xs: seq<real>, k: nat)
    ensures |xs| >= 1 ==> |Pressed(xs, k)| >= 1
    ensures |Pressed(xs, k)| <= if |xs| > MaxWavelengths then |xs| else MaxWavelengths
  {
  }

  /** The list after a sequence of presses, each on the layout rebuilt by
      the one before. */
  function PressAll(xs: seq<real>, ks: seq<nat>): seq<real>
    decreases |ks|
  {
    if ks == [] then xs else PressAll(Pressed(xs, ks[0]), ks[1..])
  }

  /** Acting only through the buttons of the one panel that holds the
      list, a list that starts with 1 to 10 entries always keeps 1 to 10
      entries. */
  lemma {:induction false} PressAllBounds(xs: seq<real>, ks: seq<nat>)
    requires 1 <= |xs| <= MaxWavelengths
    ensures 1 <= |PressAll(xs, ks)| <= MaxWavelengths
    decreases |ks|
  {
    if ks != [] {
      PressBounds(xs, ks[0]);
      PressAllBounds(Pressed(xs, ks[0]), ks[1..]);
    }
  }

  /** The default value of `__init__`'s `xlambda`. */
  const DefaultWavelengths: seq<real> := [3.0, 5.0]

  /** The default argument objects of `__init__`. Python evaluates the
      default `[3.0, 5.0]` once, when the `def` runs, so every panel built
      without `xlambda` holds this one list object: such a panel is
      `new WavelengthsControlPanel(defaults.xlambda)`. */
  class DefaultArguments {
    const xlambda: ListRef<real>

    constructor ()
      ensures fresh(xlambda) && xlambda.items == DefaultWavelengths
    {
      xlambda := new ListRef(DefaultWavelengths);
    }
  }

  /** `WavelengthsControlPanel` of `controls.py`. The list is the caller's
      list object, held by reference. */
  class WavelengthsControlPanel {
    var xlambda: ListRef<real>
    var children: seq<Widget>
    var onChange: Handler
    var onAddWavelength: Handler
    var onRemoveWavelength: Handler
    /** Ids of the registered handlers called so far, in call order. */
    var notified: seq<nat>

    /** `__init__`: keeps the list, sets every handler to `type(None)` and
        builds the widgets. */
    constructor (xlambda: ListRef<real>)
      ensures this.xlambda == xlambda && xlambda.items == old(xlambda.items)
      ensures children == Layout(xlambda.items)
      ensures onChange == Unset && onAddWavelength == Unset && onRemoveWavelength == Unset
      ensures notified == []
    {
      this.xlambda := xlambda;
      onChange := Unset;
      onAddWavelength := Unset;
      onRemoveWavelength := Unset;
      notified := [];
      new;
      UpdateWidgets();
    }

    /** `update_widgets`: one slider row per entry and the Add button, then
        a second pass binds the observer of slider `i` to entry `i`. */
    method UpdateWidgets()
      modifies this`children
      ensures children == Layout(xlambda.items)
    {
      var xs := xlambda.items;
      var n := |xs|;
      var rows: seq<Widget> := [];
      var i := 0;
      while i < n
        invariant 0 <= i <= n && |rows| == i
        invariant forall j :: 0 <= j < i ==>
          rows[j] == SliderRow(j, xs[j], RemoveDisabled(j, n), j, None)
      {
        rows := rows + [SliderRow(i, xs[i], RemoveDisabled(i, n), i, None)];
        i := i + 1;
      }
      children := rows + [AddButton(AddDisabled(n))];
      i := 0;
      while i < n
        invariant 0 <= i <= n && |children| == n + 1
        invariant forall j :: 0 <= j < i ==>
          children[j] == SliderRow(j, xs[j], RemoveDisabled(j, n), j, Some(j))
        invariant forall j :: i <= j < n ==>
          children[j] == SliderRow(j, xs[j], RemoveDisabled(j, n), j, None)
        invariant children[n] == AddButton(AddDisabled(n))
      {
        children := children[i := children[i].(observer := Some(i))];
        i := i + 1;
      }
    }

    /** `add_wavelength`: appends, rebuilds the widgets, notifies once. */
    method AddWavelength(x: real)
      modifies this`children, this`notified, xlambda
      ensures xlambda.items == old(xlambda.items) + [x]
      ensures children == Layout(xlambda.items)
      ensures notified == Notify(old(notified), onAddWavelength)
    {
      xlambda.Append(x);
      UpdateWidgets();
      notified := Notify(notified, onAddWavelength);
    }

    /** `remove_wavelength`: deletes entry `idx` (`pop` raises for an index
        outside the list), rebuilds the widgets, notifies once. */
    method RemoveWavelength(idx: nat)
      requires idx < |xlambda.items|
      modifies this`children, this`notified, xlambda
      ensures xlambda.items == old(xlambda.items)[..idx] + old(xlambda.items)[idx + 1..]
      ensures children == Layout(xlambda.items)
      ensures notified == Notify(old(notified), onRemoveWavelength)
    {
      var _ := xlambda.Pop(idx);
      UpdateWidgets();
      notified := Notify(notified, onRemoveWavelength);
    }

    /** `update_wavelength`: overwrites entry `idx`, notifies once; the
        widgets are not rebuilt. */
    method UpdateWavelength(idx: nat, value: real)
      requires idx < |xlambda.items|
      modifies this`notified, xlambda
      ensures xlambda.items == old(xlambda.items)[idx := value]
      ensures notified == Notify(old(notified), onChange)
    {
      xlambda.SetItem(idx, value);
      notified := Notify(notified, onChange);
    }

    /** A click on child `k` does what that button was built to do, to the
        list as it is now (`Click`); on a layout that matches the list this
        is `Pressed`, and the layout matches the list again afterwards. */
    method Press(k: nat) returns (ok: bool)
      requires k < |children|
      modifies this`children, this`notified, xlambda
      ensures var w := old(children[k]); var r := Click(old(xlambda.items), w);
        && (ok <==> r.Some?)
        && xlambda.items == (if ok then r.value else old(xlambda.items))
        && (ok && Enabled(w) ==> children == Layout(xlambda.items))
        && (ok && Enabled(w) ==> notified == Notify(old(notified),
              if w.AddButton? then onAddWavelength else onRemoveWavelength))
        && (!ok || !Enabled(w) ==> children == old(children) && notified == old(notified))
      ensures Current(old(children), |old(xlambda.items)|) ==>
        ok && xlambda.items == Pressed(old(xlambda.items), k) && Current(children, |xlambda.items|)
    {
      if Current(children, |xlambda.items|) {
        ClickOnCurrentLayout(xlambda.items, children, k);
      }
      var w := children[k];
      ok := true;
      if w.AddButton? {
        if !w.disabled {
          AddWavelength(AddedWavelength);
          LayoutShape(xlambda.items);
        }
      } else if !w.removeDisabled {
        if w.removes < |xlambda.items| {
          RemoveWavelength(w.removes);
          LayoutShape(xlambda.items);
        } else {
          ok := false;
        }
      }
    }

    /** The user drags the slider of row `k` to `value`. Its observer, once
        bound to entry `j`, writes `xlambda[j]`, which raises `IndexError`
        once the list is shorter; an unbound slider changes nothing. On a
        layout that matches the list, row k writes entry k. */
    method Slide(k: nat, value: real) returns (ok: bool)
      requires k < |children| && children[k].SliderRow?
      modifies this`notified, xlambda
      ensures children[k].observer.None? ==>
        ok && xlambda.items == old(xlambda.items) && notified == old(notified)
      ensures children[k].observer.Some? ==> var j := children[k].observer.value;
        && (ok <==> j < |old(xlambda.items)|)
        && (ok ==> xlambda.items == old(xlambda.items)[j := value])
        && (ok ==> notified == Notify(old(notified), onChange))
        && (!ok ==> xlambda.items == old(xlambda.items) && notified == old(notified))
      ensures Current(children, |old(xlambda.items)|) ==>
        ok && xlambda.items == old(xlambda.items)[k := value] && Current(children, |xlambda.items|)
    {
      ok := true;
      var observer := children[k].observer;
      if observer.Some? {
        if observer.value < |xlambda.items| {
          UpdateWavelength(observer.value, value);
        } else {
          ok := false;
        }
      }
    }

    /** `on_change`, `on_add_wavelength`, `on_remove_wavelength`: register a
        handler, replacing the previous one. */
    method OnChange(h: Handler)
      modifies this`onChange
      ensures onChange == h
    {
      onChange := h;
    }

    method OnAddWavelength(h: Handler)
      modifies this`onAddWavelength
      ensures onAddWavelength == h
    {
      onAddWavelength := h;
    }

    method OnRemoveWavelength(h: Handler)
      modifies this`onRemoveWavelength
      ensures onRemoveWavelength == h
    {
      onRemoveWavelength := h;
    }
  }

  /** Two panels on one list object of two entries, as every two panels
      built without `xlambda` are: after a removal through the first, the
      second's first remove button is still enabled and empties the list,
      which one panel alone never does. */
  method SharedListEmptied(shared: ListRef<real>) returns (a: WavelengthsControlPanel, b: WavelengthsControlPanel)
    requires |shared.items| == 2
    modifies shared
    ensures a.xlambda == shared && b.xlambda == shared && shared.items == []
  {
    a := new WavelengthsControlPanel(shared);
    b := new WavelengthsControlPanel(shared);
    LayoutShape(shared.items);
    var first := a.Press(0);
    var second := b.Press(0);
  }

  /** Two panels on one list object of nine entries: an Add through the
      first makes ten, and the second's Add button, built for nine, is
      still enabled and makes eleven. */
  method SharedListOverflows(shared: ListRef<real>) returns (a: WavelengthsControlPanel, b: WavelengthsControlPanel)
    requires |shared.items| == MaxWavelengths - 1
    modifies shared
    ensures a.xlambda == shared && b.xlambda == shared && |shared.items| == MaxWavelengths + 1
  {
    a := new WavelengthsControlPanel(shared);
    b := new WavelengthsControlPanel(shared);
    LayoutShape(shared.items);
    var first := a.Press(MaxWavelengths - 1);
    var second := b.Press(MaxWavelengths - 1);
  }

  /** The first two panels a program builds without `xlambda` both hold
      the default list object, and one removal through each empties it. */
  method DefaultListEmptied() returns (defaults: DefaultArguments, a: WavelengthsControlPanel, b: WavelengthsControlPanel)
    ensures a.xlambda == defaults.xlambda && b.xlambda == defaults.xlambda
    ensures defaults.xlambda.items == []
  {
    defaults := new DefaultArguments();
    a, b := SharedListEmptied(defaults.xlambda);
  }
}

/** The sidebar controls. Streamlit re-runs the whole script on every
    interaction; in one run each widget simply returns a value, so the model
    takes what the user has done with each widget as input and computes what
    the widget returns from it and from the options the script offers. */
module Widgets {
  import opened DataFrame

  /** `st.selectbox(label, options)`: the option at the user's index; the first option
      (Streamlit's default index 0) when the user never moved it; None when there are no options. */
  function Selectbox<T(==)>(options: seq<T>, pick: nat): (chosen: Option<T>)
    ensures chosen.None? <==> options == []
    ensures chosen.Some? ==> chosen.value in options
    ensures pick < |options| ==> chosen == Some(options[pick])
  {
    if options == [] then None
    else if pick < |options| then Some(options[pick])
    else Some(options[0])
  }

  /** `st.slider(label, lo, hi, (lo, hi))`: the observed range until the user moves a handle. */
  function Slider(observed: Bounds, moved: Option<(int, int)>): Bounds
  {
    match moved
    case None => observed
    case Some((lo, hi)) => Between(lo, hi)
  }

  /** `st.multiselect(label, options, default=options)`: every option until the user chooses;
      afterwards only the chosen ones, since the widget offers nothing outside its options. */
  function Multiselect(options: seq<Value>, chosen: Option<set<Value>>): (selected: seq<Value>)
    ensures forall v {:trigger v in selected} :: v in selected <==> v in options && (chosen.None? || v in chosen.value)
  {
    if options == [] then []
    else
      var rest := Multiselect(options[1..], chosen);
      assert options == [options[0]] + options[1..];
      if chosen.None? || options[0] in chosen.value then [options[0]] + rest else rest
  }

  /** What the user has done with each control in this run. A slider or multiselect
      missing from the lists was never touched; a button is true only in the run in
      which it was clicked. */
  datatype Controls = Controls(
    sliders: seq<Option<(int, int)>>,       // per numeric column, in column order
    multiselects: seq<Option<set<Value>>>,  // per categorical column, in column order
    searchColumn: nat,                      // index into the string columns
    searchTerm: nat,                        // index into the offered search terms
    searchPressed: bool,                    // "Aplicar filtro por texto" clicked in this run
    valueColumn: nat,                       // index into the numeric columns
    valuePick: nat,                         // index into the offered values
    valuePressed: bool)                     // "Aplicar filtro por valor único" clicked in this run

  /** The i-th of a list of per-column controls, defaulting to untouched. */
  function At<T>(s: seq<Option<T>>, i: nat): Option<T>
  {
    if i < |s| then s[i] else None
  }

  /** No slider or multiselect has been moved and no button clicked in this run. */
  predicate Untouched(ui: Controls)
  {
    (forall i :: 0 <= i < |ui.sliders| ==> ui.sliders[i].None?) &&
    (forall i :: 0 <= i < |ui.multiselects| ==> ui.multiselects[i].None?) &&
    !ui.searchPressed && !ui.valuePressed
  }
}

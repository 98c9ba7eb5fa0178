/**
 * `useToggle`: one boolean `on`, its negation `off`, and the ARIA
 * attributes that tie a controlling button to the region it shows.
 */
module UseToggle {
  import opened Js

  datatype ControllerProps = ControllerProps(ariaExpanded: string, ariaControls: string, role: string, tabIndex: int)
  datatype TargetProps = TargetProps(id: string, role: string, ariaHidden: string)
  datatype ToggleProps = ToggleProps(controller: ControllerProps, target: TargetProps)

  /** `props` for a toggle called `name` in state `on`. */
  function PropsFor(name: string, on: bool): (p: ToggleProps)
    ensures p.controller.ariaExpanded == "true" <==> on
    ensures p.controller.ariaExpanded in {"true", "false"}
    ensures p.target.ariaHidden == "false" <==> on
    ensures p.target.ariaHidden in {"true", "false"}
    ensures p.controller.ariaControls == name && p.target.id == name
    ensures p.controller.role == "button" && p.controller.tabIndex == 0 && p.target.role == "region"
  {
    ToggleProps(
      ControllerProps(if on then "true" else "false", name, "button", 0),
      TargetProps(name, "region", if on then "false" else "true"))
  }

  /** The expanded and hidden attributes always disagree. */
  lemma ExpandedIsNotHidden(name: string, on: bool)
    ensures PropsFor(name, on).controller.ariaExpanded != PropsFor(name, on).target.ariaHidden
  {
  }

  class ToggleHook {
    const name: string
    /** The `on` state cell. */
    var on: bool

    /** `useToggle({ name, defaultValue = false })`. */
    constructor (name: string, defaultValue: Option<bool>)
      ensures this.name == name
      ensures on == (if defaultValue.Some? then defaultValue.value else false)
      ensures Off() == !on
    {
      this.name := name;
      on := if defaultValue.Some? then defaultValue.value else false;
    }

    method Enable()
      modifies this
      ensures on
    {
      on := true;
    }

    method Disable()
      modifies this
      ensures !on
    {
      on := false;
    }

    method Toggle()
      modifies this
      ensures on == !old(on)
    {
      on := !on;
    }

    function Off(): (off: bool)
      reads this
      ensures off != on
    {
      !on
    }

    function Props(): (p: ToggleProps)
      reads this
      ensures p == PropsFor(name, on)
    {
      PropsFor(name, on)
    }
  }

  /** Two toggles restore the state. */
  method ToggleTwice(t: ToggleHook)
    modifies t
    ensures t.on == old(t.on)
  {
    t.Toggle();
    t.Toggle();
  }

  /** The six keys `extractUseToggle` takes out. */
  const ToggleKeys: set<string> := {"on", "off", "enable", "disable", "toggle", "props"}

  /**
   * `extractUseToggle`: split an object that spreads a toggle into the
   * toggle's six fields and the rest.
   */
  function ExtractUseToggle<V>(props: map<string, V>): (r: (map<string, V>, map<string, V>))
    requires ToggleKeys <= props.Keys
    ensures r.0.Keys == ToggleKeys
    ensures r.1.Keys == props.Keys - ToggleKeys
    ensures forall k :: k in r.0 ==> r.0[k] == props[k]
    ensures forall k :: k in r.1 ==> r.1[k] == props[k]
  {
    (map k | k in ToggleKeys :: props[k], map k | k in props.Keys - ToggleKeys :: props[k])
  }

  /** The two parts are disjoint and together give back the object. */
  lemma ExtractRecombines<V>(props: map<string, V>)
    requires ToggleKeys <= props.Keys
    ensures ExtractUseToggle(props).0.Keys !! ExtractUseToggle(props).1.Keys
    ensures ExtractUseToggle(props).0 + ExtractUseToggle(props).1 == props
  {
    var (toggle, rest) := ExtractUseToggle(props);
    assert (toggle + rest).Keys == props.Keys;
  }
}

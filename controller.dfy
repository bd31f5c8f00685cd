/**
 * PostProcessController.cs: binds trigger keys to effect components found in
 * the Volume's profile, dispatches key presses to them and resets them.
 *
 * Components are not called directly: Start and OnDestroy return the profile
 * indices whose Reset they call, in order, and Update returns the Execute
 * calls it makes. A wrapper is a value inside the `wrapers` sequence (Unity
 * serialises a [Serializable] class inline, so two list entries never share
 * one wrapper object).
 */
module Controller {
  import opened Wrappers

  /** PostProcessType: the nine trigger kinds. */
  datatype PostProcessType =
    | ReflectionHorizontal
    | ReflectionVertical
    | Mosaic
    | RadiationBlur
    | RectBlockGlitch
    | NoiseDistortion
    | BarrelDistortion
    | RGBShift
    | RandomInvert

  /** The runtime type of a component in the profile (`c.GetType()`). */
  datatype ComponentType =
    | ReflectionComponent
    | MosaicComponent
    | RadiationBlurComponent
    | RectBlockGlitchComponent
    | DistortionComponent
    | RGBShiftComponent
    | RandomInvertComponent
    | NegativeComponent
    | EdgeDetectionComponent
    | OtherComponent

  type KeyCode = nat

  /** PostProcessWraper: a trigger type (the field `type` in C#), its key, and the component it resolved to (an index into the profile). */
  datatype PostProcessWraper = PostProcessWraper(kind: PostProcessType, key: KeyCode, component: Option<nat>)
  {
    /** `IsValid => component != null`. */
    predicate IsValid(): (valid: bool)
      ensures valid <==> component != None
    {
      component.Some?
    }
  }

  /**
   * The component type Start registers for each trigger type with its nine
   * `mapper.Add` calls: both reflections share one type, and so do both
   * distortions. No trigger type maps to a Negative or EdgeDetection
   * component, so neither can be dispatched by the controller.
   */
  function MappedType(t: PostProcessType): (c: ComponentType)
    ensures c != NegativeComponent && c != EdgeDetectionComponent && c != OtherComponent
  {
    match t
    case ReflectionHorizontal => ReflectionComponent
    case ReflectionVertical => ReflectionComponent
    case Mosaic => MosaicComponent
    case RadiationBlur => RadiationBlurComponent
    case RectBlockGlitch => RectBlockGlitchComponent
    case NoiseDistortion => DistortionComponent
    case BarrelDistortion => DistortionComponent
    case RGBShift => RGBShiftComponent
    case RandomInvert => RandomInvertComponent
  }

  /** A map holding the nine entries Start registers maps every trigger type to its table entry. */
  lemma NineEntries(m: map<PostProcessType, ComponentType>)
    requires ReflectionHorizontal in m && m[ReflectionHorizontal] == ReflectionComponent
    requires ReflectionVertical in m && m[ReflectionVertical] == ReflectionComponent
    requires Mosaic in m && m[Mosaic] == MosaicComponent
    requires RadiationBlur in m && m[RadiationBlur] == RadiationBlurComponent
    requires RectBlockGlitch in m && m[RectBlockGlitch] == RectBlockGlitchComponent
    requires NoiseDistortion in m && m[NoiseDistortion] == DistortionComponent
    requires BarrelDistortion in m && m[BarrelDistortion] == DistortionComponent
    requires RGBShift in m && m[RGBShift] == RGBShiftComponent
    requires RandomInvert in m && m[RandomInvert] == RandomInvertComponent
    ensures forall t :: t in m && m[t] == MappedType(t)
  {
    forall t ensures t in m && m[t] == MappedType(t) {
      match t
      case ReflectionHorizontal =>
      case ReflectionVertical =>
      case Mosaic =>
      case RadiationBlur =>
      case RectBlockGlitch =>
      case NoiseDistortion =>
      case BarrelDistortion =>
      case RGBShift =>
      case RandomInvert =>
    }
  }

  /**
   * `components.FirstOrDefault(c => c.GetType() == t)`: the index of the
   * first component of type t, or null when there is none.
   */
  function FirstMatch(components: seq<ComponentType>, t: ComponentType): (r: Option<nat>)
    ensures r.Some? ==> r.value < |components| && components[r.value] == t
    ensures r.Some? ==> forall j :: 0 <= j < r.value ==> components[j] != t
    ensures r.None? <==> t !in components
  {
    FirstMatchFrom(components, t, 0)
  }

  function FirstMatchFrom(components: seq<ComponentType>, t: ComponentType, from: nat): (r: Option<nat>)
    requires from <= |components|
    ensures r.Some? ==> from <= r.value < |components| && components[r.value] == t
    ensures r.Some? ==> forall j :: from <= j < r.value ==> components[j] != t
    ensures r.None? <==> forall j :: from <= j < |components| ==> components[j] != t
    decreases |components| - from
  {
    if from == |components| then None
    else if components[from] == t then Some(from)
    else FirstMatchFrom(components, t, from + 1)
  }

  /**
   * Dictionary.Add(t, c): throws ArgumentException (None) when t is already
   * a key, and otherwise adds the entry, leaving every other entry as it was.
   */
  function DictionaryAdd(m: map<PostProcessType, ComponentType>, t: PostProcessType, c: ComponentType)
    : (r: Option<map<PostProcessType, ComponentType>>)
    ensures r.None? <==> t in m
    ensures r.Some? ==> r.value == m[t := c]
  {
    if t in m then None else Some(m[t := c])
  }

  /** One `key.Execute(this)` call: the wrapper, its component, and the type it forwards. */
  datatype Dispatch = Dispatch(wraper: nat, component: nat, kind: PostProcessType)

  /**
   * The calls Update's loop makes over the wrappers `ws`, in list order:
   * one for each valid wrapper whose key is in `pressed`.
   */
  function Dispatches(ws: seq<PostProcessWraper>, pressed: set<KeyCode>): seq<Dispatch>
  {
    if ws == [] then []
    else
      var rest := Dispatches(ws[..|ws| - 1], pressed);
      var w := ws[|ws| - 1];
      if w.IsValid() && w.key in pressed then rest + [Dispatch(|ws| - 1, w.component.value, w.kind)] else rest
  }

  /** Every call goes to a valid, pressed wrapper, with that wrapper's component and type. */
  lemma {:induction false} DispatchesSound(ws: seq<PostProcessWraper>, pressed: set<KeyCode>)
    ensures forall k :: 0 <= k < |Dispatches(ws, pressed)| ==>
      var c := Dispatches(ws, pressed)[k];
      && c.wraper < |ws|
      && ws[c.wraper].IsValid()
      && ws[c.wraper].key in pressed
      && c.component == ws[c.wraper].component.value
      && c.kind == ws[c.wraper].kind
  {
    if ws != [] {
      DispatchesSound(ws[..|ws| - 1], pressed);
    }
  }

  /** The calls follow the list order, each wrapper at most once. */
  lemma {:induction false} DispatchesOrdered(ws: seq<PostProcessWraper>, pressed: set<KeyCode>)
    ensures forall k, l :: 0 <= k < l < |Dispatches(ws, pressed)| ==>
      Dispatches(ws, pressed)[k].wraper < Dispatches(ws, pressed)[l].wraper
  {
    if ws != [] {
      var front := ws[..|ws| - 1];
      DispatchesOrdered(front, pressed);
      DispatchesSound(front, pressed);
      var calls, rest := Dispatches(ws, pressed), Dispatches(front, pressed);
      forall k, l | 0 <= k < l < |calls|
        ensures calls[k].wraper < calls[l].wraper
      {
        assert calls[k] == rest[k];
        if l < |rest| {
          assert calls[l] == rest[l];
        } else {
          assert calls[l].wraper == |ws| - 1;
        }
      }
    }
  }

  /** No valid, pressed wrapper is skipped: its call is among the calls. */
  lemma {:induction false} DispatchesComplete(ws: seq<PostProcessWraper>, pressed: set<KeyCode>)
    ensures forall i :: 0 <= i < |ws| && ws[i].IsValid() && ws[i].key in pressed ==>
      Dispatch(i, ws[i].component.value, ws[i].kind) in Dispatches(ws, pressed)
  {
    if ws != [] {
      var front := ws[..|ws| - 1];
      DispatchesComplete(front, pressed);
      forall i | 0 <= i < |ws| - 1 && ws[i].IsValid() && ws[i].key in pressed
        ensures Dispatch(i, ws[i].component.value, ws[i].kind) in Dispatches(ws, pressed)
      {
        assert front[i] == ws[i];
      }
    }
  }

  datatype StartOutcome =
    | Started
      /** The Volume has no profile: an error is logged and Start returns. */
    | NoProfile
      /** `mapper.Add` met a key it already holds (ArgumentException). */
    | DuplicateKey(kind: PostProcessType)
      /** `key.Reset()` on a wrapper left without a component (NullReferenceException). */
    | NullComponent(wraper: nat)

  class PostProcessController {
    var wrapers: seq<PostProcessWraper>
    var mapper: map<PostProcessType, ComponentType>
    /** The Volume's profile: the runtime types of its components, or null. */
    var profile: Option<seq<ComponentType>>

    /** The nine `mapper.Add` calls have all happened. */
    ghost predicate Registered()
      reads this
    {
      forall t :: t in mapper && mapper[t] == MappedType(t)
    }

    /**
     * The mapper is either still empty or holds exactly the nine entries
     * Start registers, and every resolved wrapper points at a profile
     * component of the type the mapper gives for its trigger type.
     */
    ghost predicate Resolved()
      reads this
    {
      && (mapper == map[] || Registered())
      && forall i :: 0 <= i < |wrapers| && wrapers[i].IsValid() ==>
           && profile.Some?
           && wrapers[i].component.value < |profile.value|
           && profile.value[wrapers[i].component.value] == MappedType(wrapers[i].kind)
    }

    /** The serialised bindings, before Start: no wrapper holds a component yet. */
    constructor (bindings: seq<(PostProcessType, KeyCode)>, profile: Option<seq<ComponentType>>)
      ensures |wrapers| == |bindings|
      ensures forall i :: 0 <= i < |bindings| ==> wrapers[i] == PostProcessWraper(bindings[i].0, bindings[i].1, None)
      ensures mapper == map[] && this.profile == profile
      ensures Resolved()
    {
      wrapers := seq(|bindings|, i requires 0 <= i < |bindings| => PostProcessWraper(bindings[i].0, bindings[i].1, None));
      mapper := map[];
      this.profile := profile;
    }

    /**
     * The nine `mapper.Add` calls of Start. On the empty mapper all of them
     * succeed; on a mapper that already holds the entries the first one
     * throws, naming ReflectionHorizontal, and nothing changes.
     */
    method Register() returns (duplicate: Option<PostProcessType>)
      requires mapper == map[] || Registered()
      modifies this`mapper
      ensures duplicate.None? <==> old(mapper) == map[]
      ensures duplicate.None? ==> Registered()
      ensures duplicate.Some? ==> duplicate.value == ReflectionHorizontal && mapper == old(mapper)
    {
      var m := mapper;
      var r := DictionaryAdd(m, ReflectionHorizontal, ReflectionComponent);
      if r.None? { return Some(ReflectionHorizontal); }
      // The mapper was empty, so none of the other eight keys is in it yet.
      m := r.value;
      assert ReflectionVertical !in m;
      r := DictionaryAdd(m, ReflectionVertical, ReflectionComponent);
      m := r.value;
      assert Mosaic !in m;
      r := DictionaryAdd(m, Mosaic, MosaicComponent);
      m := r.value;
      assert RadiationBlur !in m;
      r := DictionaryAdd(m, RadiationBlur, RadiationBlurComponent);
      m := r.value;
      assert RectBlockGlitch !in m;
      r := DictionaryAdd(m, RectBlockGlitch, RectBlockGlitchComponent);
      m := r.value;
      assert NoiseDistortion !in m;
      r := DictionaryAdd(m, NoiseDistortion, DistortionComponent);
      m := r.value;
      assert BarrelDistortion !in m;
      r := DictionaryAdd(m, BarrelDistortion, DistortionComponent);
      m := r.value;
      assert RGBShift !in m;
      r := DictionaryAdd(m, RGBShift, RGBShiftComponent);
      m := r.value;
      assert RandomInvert !in m;
      r := DictionaryAdd(m, RandomInvert, RandomInvertComponent);
      mapper := r.value;
      NineEntries(mapper);
      return None;
    }

    /**
     * Start: with no profile, returns before touching the mapper or any
     * wrapper. Otherwise registers the nine mapper entries, then for each
     * wrapper in turn sets its component to the first profile component of
     * the mapped type and resets it; an unresolved wrapper makes that Reset
     * throw, which ends Start and leaves the later wrappers unresolved.
     */
    method Start() returns (outcome: StartOutcome, resets: seq<nat>)
      requires Resolved()
      modifies this`mapper, this`wrapers
      ensures Resolved()
      ensures outcome == NoProfile <==> profile.None?
      ensures profile.None? ==> mapper == old(mapper) && wrapers == old(wrapers) && resets == []
      ensures profile.Some? && old(mapper) == map[] ==> !outcome.DuplicateKey? && Registered()
      ensures profile.Some? && old(mapper) != map[] ==> outcome == DuplicateKey(ReflectionHorizontal) && wrapers == old(wrapers) && resets == []
      ensures |wrapers| == |old(wrapers)|
      ensures forall i :: 0 <= i < |wrapers| ==> wrapers[i].kind == old(wrapers)[i].kind && wrapers[i].key == old(wrapers)[i].key
      ensures outcome.Started? ==>
        && |resets| == |wrapers|
        && forall i :: 0 <= i < |wrapers| ==>
             wrapers[i].component == FirstMatch(profile.value, MappedType(wrapers[i].kind)) && Some(resets[i]) == wrapers[i].component
      ensures outcome.NullComponent? ==>
        && outcome.wraper < |wrapers|
        && |resets| == outcome.wraper
        && wrapers[outcome.wraper].component == None
        && MappedType(wrapers[outcome.wraper].kind) !in profile.value
        && (forall i :: 0 <= i < outcome.wraper ==>
              wrapers[i].component == FirstMatch(profile.value, MappedType(wrapers[i].kind)) && Some(resets[i]) == wrapers[i].component)
        && forall i :: outcome.wraper < i < |wrapers| ==> wrapers[i] == old(wrapers)[i]
    {
      resets := [];
      if profile.None? {
        outcome := NoProfile;
        return;
      }
      var duplicate := Register();
      if duplicate.Some? {
        outcome := DuplicateKey(duplicate.value);
        return;
      }
      outcome, resets := ResolveWrapers();
    }

    /** The `foreach` of Start: SetComponent then Reset on each wrapper in turn. */
    method ResolveWrapers() returns (outcome: StartOutcome, resets: seq<nat>)
      requires profile.Some? && Registered() && Resolved()
      modifies this`wrapers
      ensures Registered() && Resolved()
      ensures outcome.Started? || outcome.NullComponent?
      ensures |wrapers| == |old(wrapers)|
      ensures forall i :: 0 <= i < |wrapers| ==> wrapers[i].kind == old(wrapers)[i].kind && wrapers[i].key == old(wrapers)[i].key
      ensures outcome.Started? ==>
        && |resets| == |wrapers|
        && forall i :: 0 <= i < |wrapers| ==>
             wrapers[i].component == FirstMatch(profile.value, MappedType(wrapers[i].kind)) && Some(resets[i]) == wrapers[i].component
      ensures outcome.NullComponent? ==>
        && outcome.wraper < |wrapers|
        && |resets| == outcome.wraper
        && wrapers[outcome.wraper].component == None
        && MappedType(wrapers[outcome.wraper].kind) !in profile.value
        && (forall i :: 0 <= i < outcome.wraper ==>
              wrapers[i].component == FirstMatch(profile.value, MappedType(wrapers[i].kind)) && Some(resets[i]) == wrapers[i].component)
        && forall i :: outcome.wraper < i < |wrapers| ==> wrapers[i] == old(wrapers)[i]
    {
      var components := profile.value;
      resets := [];
      var i := 0;
      while i < |wrapers|
        invariant 0 <= i <= |wrapers| && |wrapers| == |old(wrapers)|
        invariant Registered() && Resolved()
        invariant |resets| == i
        invariant forall j :: 0 <= j < |wrapers| ==> wrapers[j].kind == old(wrapers)[j].kind && wrapers[j].key == old(wrapers)[j].key
        invariant forall j :: 0 <= j < i ==>
          wrapers[j].component == FirstMatch(components, MappedType(wrapers[j].kind)) && Some(resets[j]) == wrapers[j].component
        invariant forall j :: i <= j < |wrapers| ==> wrapers[j] == old(wrapers)[j]
      {
        var found := FirstMatch(components, mapper[wrapers[i].kind]);
        wrapers := wrapers[i := wrapers[i].(component := found)];
        if found.None? {
          return NullComponent(i), resets;
        }
        resets := resets + [found.value];
        i := i + 1;
      }
      return Started, resets;
    }

    /**
     * Update: Execute is called, in list order, on exactly the wrappers that
     * are valid and whose key went down this frame; each call forwards the
     * wrapper's own type to its component. Nothing else is touched.
     */
    method Update(pressed: set<KeyCode>) returns (calls: seq<Dispatch>)
      ensures calls == Dispatches(wrapers, pressed)
      ensures forall k :: 0 <= k < |calls| ==>
        && calls[k].wraper < |wrapers|
        && wrapers[calls[k].wraper].IsValid()
        && wrapers[calls[k].wraper].key in pressed
        && calls[k].component == wrapers[calls[k].wraper].component.value
        && calls[k].kind == wrapers[calls[k].wraper].kind
      ensures forall k, l :: 0 <= k < l < |calls| ==> calls[k].wraper < calls[l].wraper
      ensures forall i :: 0 <= i < |wrapers| && wrapers[i].IsValid() && wrapers[i].key in pressed ==>
        Dispatch(i, wrapers[i].component.value, wrapers[i].kind) in calls
      ensures Resolved() ==> forall k :: 0 <= k < |calls| ==>
        && profile.Some?
        && calls[k].component < |profile.value|
        && profile.value[calls[k].component] == MappedType(calls[k].kind)
        && profile.value[calls[k].component] != NegativeComponent
        && profile.value[calls[k].component] != EdgeDetectionComponent
    {
      calls := [];
      var i := 0;
      while i < |wrapers|
        invariant 0 <= i <= |wrapers|
        invariant calls == Dispatches(wrapers[..i], pressed)
      {
        var w := wrapers[i];
        assert wrapers[..i + 1][..i] == wrapers[..i];
        if w.IsValid() && w.key in pressed {
          calls := calls + [Dispatch(i, w.component.value, w.kind)];
        }
        i := i + 1;
      }
      assert wrapers[..i] == wrapers;
      DispatchesSound(wrapers, pressed);
      DispatchesOrdered(wrapers, pressed);
      DispatchesComplete(wrapers, pressed);
      if Resolved() {
        forall k | 0 <= k < |calls|
          ensures profile.Some? && calls[k].component < |profile.value|
          ensures profile.value[calls[k].component] == MappedType(calls[k].kind)
          ensures profile.value[calls[k].component] != NegativeComponent
          ensures profile.value[calls[k].component] != EdgeDetectionComponent
        {
          assert wrapers[calls[k].wraper].IsValid();
        }
      }
    }

    /**
     * OnDestroy: resets the wrappers' components in list order; the first
     * wrapper without a component makes Reset throw, and no later wrapper
     * is reset.
     */
    method OnDestroy() returns (resets: seq<nat>, failed: Option<nat>)
      ensures failed.None? <==> forall i :: 0 <= i < |wrapers| ==> wrapers[i].IsValid()
      ensures failed.Some? ==>
        && failed.value < |wrapers|
        && !wrapers[failed.value].IsValid()
        && forall i :: 0 <= i < failed.value ==> wrapers[i].IsValid()
      ensures |resets| == (if failed.Some? then failed.value else |wrapers|)
      ensures forall k :: 0 <= k < |resets| ==> Some(resets[k]) == wrapers[k].component
    {
      resets := [];
      var i := 0;
      while i < |wrapers|
        invariant 0 <= i <= |wrapers| && |resets| == i
        invariant forall k :: 0 <= k < i ==> Some(resets[k]) == wrapers[k].component
      {
        if wrapers[i].component.None? {
          failed := Some(i);
          return;
        }
        resets := resets + [wrapers[i].component.value];
        i := i + 1;
      }
      failed := None;
    }
  }
}

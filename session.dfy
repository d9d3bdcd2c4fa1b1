/** The browser session as the agents drive it: the steps they request (navigate, click, type),
    and form scripts whose typed values are read from a caller-supplied mapping. A Python
    `_safe_type(selector, values[key])` evaluates `values[key]` first, so a missing key raises
    `KeyError` before anything is typed and the rest of the script is never reached. */
module Session {
  import opened Wrappers

  datatype Step = Navigate(url: string) | Click(selector: string) | Type(selector: string, text: string)

  /** Steps an operation requested, with its result. */
  datatype Trace<+T> = Trace(steps: seq<Step>, result: T)

  /** One line of a form script: `_safe_click(selector)`, `_safe_type(selector, values[key])`
      or `_safe_type(selector, values.get(key, default))`. */
  datatype Action =
    | Press(selector: string)
    | Enter(selector: string, key: string)
    | EnterOr(selector: string, key: string, default: string)

  type Script = seq<Action>

  /** Steps performed, and the key whose lookup raised `KeyError`, if one did. */
  datatype Fill = Fill(steps: seq<Step>, missing: Option<string>)

  /** Every key the script reads with `values[key]` is present. */
  predicate Complete(script: Script, values: map<string, string>) {
    forall i :: 0 <= i < |script| && script[i].Enter? ==> script[i].key in values
  }

  /** The keys a script reads with `values[key]`. */
  function Required(script: Script): set<string> {
    set i | 0 <= i < |script| && script[i].Enter? :: script[i].key
  }

  /** `step` is what performing `action` with `values` requests. */
  predicate Performs(step: Step, action: Action, values: map<string, string>) {
    match action
    case Press(sel) => step == Click(sel)
    case Enter(sel, key) => key in values && step == Type(sel, values[key])
    case EnterOr(sel, key, default) => step == Type(sel, if key in values then values[key] else default)
  }

  /** Runs a form script: every action up to the first `Enter` whose key is missing. */
  function Play(script: Script, values: map<string, string>): (r: Fill)
    ensures |r.steps| <= |script|
    ensures forall j :: 0 <= j < |r.steps| ==> Performs(r.steps[j], script[j], values)
    ensures r.missing.None? <==> |r.steps| == |script|
    ensures r.missing.Some? ==>
      var n := |r.steps|;
      script[n].Enter? && script[n].key == r.missing.value && r.missing.value !in values
  {
    if script == [] then Fill([], None)
    else
      var rest := Play(script[1..], values);
      match script[0]
      case Press(sel) => Fill([Click(sel)] + rest.steps, rest.missing)
      case Enter(sel, key) =>
        if key in values then Fill([Type(sel, values[key])] + rest.steps, rest.missing)
        else Fill([], Some(key))
      case EnterOr(sel, key, default) =>
        Fill([Type(sel, if key in values then values[key] else default)] + rest.steps, rest.missing)
  }

  /** A script runs to the end exactly when every key it requires is present. */
  lemma PlayCompleteIff(script: Script, values: map<string, string>)
    ensures Play(script, values).missing.None? <==> Complete(script, values)
  {
    var r := Play(script, values);
    if r.missing.None? {
      forall i | 0 <= i < |script| && script[i].Enter?
        ensures script[i].key in values
      {
        assert Performs(r.steps[i], script[i], values);
      }
    } else {
      var n := |r.steps|;
      assert script[n].Enter? && script[n].key !in values;
    }
  }

  lemma CompleteIffRequired(script: Script, values: map<string, string>)
    ensures Complete(script, values) <==> Required(script) <= values.Keys
  {
    if Complete(script, values) {
      forall k | k in Required(script) ensures k in values {
        var i :| 0 <= i < |script| && script[i].Enter? && script[i].key == k;
      }
    }
    if Required(script) <= values.Keys {
      forall i | 0 <= i < |script| && script[i].Enter? ensures script[i].key in values {
        assert script[i].key in Required(script);
      }
    }
  }

  /** The key reported missing is the first one the script needs that is absent: every
      `Enter` before it found its key. */
  lemma {:induction false} PlayReportsFirstMissing(script: Script, values: map<string, string>)
    ensures var r := Play(script, values);
      r.missing.Some? ==> Complete(script[..|r.steps|], values)
  {
    var r := Play(script, values);
    if r.missing.Some? {
      var n := |r.steps|;
      forall i | 0 <= i < n && script[..n][i].Enter? ensures script[..n][i].key in values {
        assert Performs(r.steps[i], script[i], values);
      }
    }
  }

  /** What a script types does not depend on keys it never reads. */
  lemma {:induction false} PlayIgnoresUnreadKeys(script: Script, v1: map<string, string>, v2: map<string, string>)
    requires forall i :: 0 <= i < |script| && !script[i].Press? ==>
      (script[i].key in v1 <==> script[i].key in v2) &&
      (script[i].key in v1 ==> v1[script[i].key] == v2[script[i].key])
    ensures Play(script, v1) == Play(script, v2)
  {
    if script != [] {
      PlayIgnoresUnreadKeys(script[1..], v1, v2);
      assert !script[0].Press? ==> (script[0].key in v1 <==> script[0].key in v2);
    }
  }
}

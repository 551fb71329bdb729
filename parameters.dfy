/**
 * Best-effort parameter application. Every attribute assignment is tried in
 * the order the parameters are listed; one that the object refuses is
 * reported and skipped, and the remaining ones are still tried. Whether an
 * object accepts an assignment is decided by the CAD kernel, so it is the
 * parameter `accepts` here.
 */
module Parameters {

  /** An attribute value as the operation parameters use them. */
  datatype Value = Str(s: string) | Num(r: real) | Int(i: int)

  /** One (name, value) entry of the parameter dictionary. */
  type Param = (string, Value)

  type Attributes = map<string, Value>

  /** Names of the entries whose assignment is accepted. */
  function AcceptedNames(params: seq<Param>, accepts: (string, Value) -> bool): set<string> {
    set p | p in params && accepts(p.0, p.1) :: p.0
  }

  /** One assignment attempt: an accepted entry replaces or adds the attribute. */
  function Assign(attrs: Attributes, p: Param, accepts: (string, Value) -> bool): Attributes {
    if accepts(p.0, p.1) then attrs[p.0 := p.1] else attrs
  }

  /**
   * The attributes after trying every entry of `params`, in order. Exactly
   * the accepted names are added, and every other attribute keeps its value.
   */
  function ApplyAll(attrs: Attributes, params: seq<Param>, accepts: (string, Value) -> bool): (r: Attributes)
    ensures r.Keys == attrs.Keys + AcceptedNames(params, accepts)
    ensures forall k :: k in attrs && k !in AcceptedNames(params, accepts) ==> r[k] == attrs[k]
    decreases |params|
  {
    if params == [] then attrs
    else
      var init, last := params[..|params| - 1], params[|params| - 1];
      assert params == init + [last];
      assert AcceptedNames(params, accepts)
        == AcceptedNames(init, accepts) + (if accepts(last.0, last.1) then {last.0} else {});
      Assign(ApplyAll(attrs, init, accepts), last, accepts)
  }

  /** Names of the rejected entries, in order: what is reported. */
  function Rejected(params: seq<Param>, accepts: (string, Value) -> bool): (r: seq<string>)
    ensures |r| <= |params|
    ensures forall n :: n in r ==> exists p :: p in params && p.0 == n && !accepts(p.0, p.1)
    ensures forall p :: p in params && !accepts(p.0, p.1) ==> p.0 in r
    decreases |params|
  {
    if params == [] then []
    else
      var init, last := params[..|params| - 1], params[|params| - 1];
      var r := Rejected(init, accepts);
      assert params == init + [last];
      assert forall p :: p in init ==> p in params;
      if accepts(last.0, last.1) then r else r + [last.0]
  }

  /** Trying one more entry reports its name exactly when it is refused. */
  lemma RejectedSnoc(init: seq<Param>, last: Param, accepts: (string, Value) -> bool)
    ensures Rejected(init + [last], accepts)
            == Rejected(init, accepts) + (if accepts(last.0, last.1) then [] else [last.0])
  {
    var full := init + [last];
    assert full[..|full| - 1] == init && full[|full| - 1] == last;
  }

  /** The reports of two runs of entries, one after the other, are the two reports in that order. */
  lemma {:induction false} RejectedAppend(a: seq<Param>, b: seq<Param>, accepts: (string, Value) -> bool)
    ensures Rejected(a + b, accepts) == Rejected(a, accepts) + Rejected(b, accepts)
    decreases |b|
  {
    if b == [] {
      assert a + b == a;
    } else {
      var init, last := b[..|b| - 1], b[|b| - 1];
      assert b == init + [last];
      assert a + b == (a + init) + [last];
      RejectedAppend(a, init, accepts);
      RejectedSnoc(a + init, last, accepts);
      RejectedSnoc(init, last, accepts);
    }
  }

  /** No name occurs twice, as in a dictionary. */
  predicate DistinctNames(params: seq<Param>) {
    forall i, j :: 0 <= i < j < |params| ==> params[i].0 != params[j].0
  }

  /**
   * An accepted entry that no later accepted entry of the same name
   * overrides holds its value afterwards, whatever was rejected before or
   * after it.
   */
  lemma {:induction false} ApplyAllLastAccepted(attrs: Attributes, params: seq<Param>,
                                                accepts: (string, Value) -> bool, i: nat)
    requires i < |params| && accepts(params[i].0, params[i].1)
    requires forall j :: i < j < |params| && params[j].0 == params[i].0 ==> !accepts(params[j].0, params[j].1)
    ensures var r := ApplyAll(attrs, params, accepts);
            params[i].0 in r && r[params[i].0] == params[i].1
    decreases |params|
  {
    var init, last := params[..|params| - 1], params[|params| - 1];
    if i < |params| - 1 {
      ApplyAllLastAccepted(attrs, init, accepts, i);
    }
  }

  /** For a dictionary: every accepted entry holds its value afterwards. */
  lemma ApplyAllDistinct(attrs: Attributes, params: seq<Param>, accepts: (string, Value) -> bool, i: nat)
    requires DistinctNames(params)
    requires i < |params| && accepts(params[i].0, params[i].1)
    ensures var r := ApplyAll(attrs, params, accepts);
            params[i].0 in r && r[params[i].0] == params[i].1
  {
    ApplyAllLastAccepted(attrs, params, accepts, i);
  }

  /** Trying one more entry after a list is one more assignment attempt. */
  lemma ApplyAllSnoc(attrs: Attributes, init: seq<Param>, last: Param, accepts: (string, Value) -> bool)
    ensures ApplyAll(attrs, init + [last], accepts) == Assign(ApplyAll(attrs, init, accepts), last, accepts)
  {
    var full := init + [last];
    assert full[..|full| - 1] == init && full[|full| - 1] == last;
  }

  /**
   * A rejected entry changes nothing: removing it from anywhere in the list
   * gives the same attributes, so it blocks none of the entries after it.
   */
  lemma {:induction false} RejectedEntryIsSkipped(attrs: Attributes, before: seq<Param>, p: Param,
                                                  after: seq<Param>, accepts: (string, Value) -> bool)
    requires !accepts(p.0, p.1)
    ensures ApplyAll(attrs, before + [p] + after, accepts) == ApplyAll(attrs, before + after, accepts)
    decreases |after|
  {
    if after == [] {
      assert before + [p] + after == before + [p];
      assert before + after == before;
      ApplyAllSnoc(attrs, before, p, accepts);
    } else {
      var init, last := after[..|after| - 1], after[|after| - 1];
      assert before + [p] + after == (before + [p] + init) + [last];
      assert before + after == (before + init) + [last];
      RejectedEntryIsSkipped(attrs, before, p, init, accepts);
      ApplyAllSnoc(attrs, before + [p] + init, last, accepts);
      ApplyAllSnoc(attrs, before + init, last, accepts);
    }
  }

  /** When every entry is rejected the attributes are unchanged and every name is reported, in order. */
  lemma {:induction false} AllRejected(attrs: Attributes, params: seq<Param>, accepts: (string, Value) -> bool)
    requires forall p :: p in params ==> !accepts(p.0, p.1)
    ensures ApplyAll(attrs, params, accepts) == attrs
    ensures var r := Rejected(params, accepts);
            |r| == |params| && forall i :: 0 <= i < |params| ==> r[i] == params[i].0
    decreases |params|
  {
    if params != [] {
      var init, last := params[..|params| - 1], params[|params| - 1];
      assert params == init + [last];
      assert forall p :: p in init ==> p in params;
      AllRejected(attrs, init, accepts);
      ApplyAllSnoc(attrs, init, last, accepts);
      assert Rejected(params, accepts) == Rejected(init, accepts) + [last.0];
    }
  }
}

/** Header handling: `setHeader` overwrites, so a message's headers are a map
    from name to value and every update is last-writer-wins. Names are taken
    literally (no case folding). */
module HeaderMaps {

  /** A header as the upstream response lists it: name and value. */
  type Header = (string, string)

  /** The header map after `setHeader` is applied to each of `hs` in order. */
  function SetAll(m: map<string, string>, hs: seq<Header>): (r: map<string, string>)
    decreases |hs|
  {
    if hs == [] then m
    else SetAll(m, hs[..|hs| - 1])[hs[|hs| - 1].0 := hs[|hs| - 1].1]
  }

  /** The names listed in `hs`. */
  function Names(hs: seq<Header>): set<string>
  {
    set i | 0 <= i < |hs| :: hs[i].0
  }

  /** Copying adds exactly the listed names to the map. */
  lemma {:induction false} SetAllKeys(m: map<string, string>, hs: seq<Header>)
    ensures SetAll(m, hs).Keys == m.Keys + Names(hs)
    decreases |hs|
  {
    if hs != [] {
      var init := hs[..|hs| - 1];
      SetAllKeys(m, init);
      assert Names(hs) == Names(init) + {hs[|hs| - 1].0} by {
        forall n | n in Names(hs) ensures n in Names(init) + {hs[|hs| - 1].0} {
          var i :| 0 <= i < |hs| && hs[i].0 == n;
          if i < |hs| - 1 { assert init[i] == hs[i]; }
        }
        forall n | n in Names(init) ensures n in Names(hs) {
          var i :| 0 <= i < |init| && init[i].0 == n;
          assert hs[i] == init[i];
        }
      }
    }
  }

  /** Last writer wins: a name listed in `hs` ends with the value of its last
      occurrence. */
  lemma {:induction false} SetAllLastWins(m: map<string, string>, hs: seq<Header>, j: int)
    requires 0 <= j < |hs|
    requires forall i :: j < i < |hs| ==> hs[i].0 != hs[j].0
    ensures hs[j].0 in SetAll(m, hs) && SetAll(m, hs)[hs[j].0] == hs[j].1
    decreases |hs|
  {
    var last := |hs| - 1;
    if j < last {
      var init := hs[..last];
      forall i | j < i < |init| ensures init[i].0 != init[j].0 {
        assert init[i] == hs[i];
      }
      SetAllLastWins(m, init, j);
    }
  }

  /** A name that `hs` does not list keeps its entry, or its absence. */
  lemma {:induction false} SetAllUntouched(m: map<string, string>, hs: seq<Header>, name: string)
    requires forall i :: 0 <= i < |hs| ==> hs[i].0 != name
    ensures name in SetAll(m, hs) <==> name in m
    ensures name in m ==> SetAll(m, hs)[name] == m[name]
    decreases |hs|
  {
    if hs != [] {
      var init := hs[..|hs| - 1];
      forall i | 0 <= i < |init| ensures init[i].0 != name {
        assert init[i] == hs[i];
      }
      SetAllUntouched(m, init, name);
    }
  }

  /** The headers of one message, updated in place by `setHeader`. */
  class Headers {
    var fields: map<string, string>

    constructor ()
      ensures fields == map[]
    {
      fields := map[];
    }

    /** `setHeader`: add the header, replacing any value of the same name. */
    method Set(name: string, value: string)
      modifies this
      ensures fields == old(fields)[name := value]
      ensures name in fields && fields[name] == value
      ensures forall n :: n != name ==> (n in fields <==> n in old(fields))
      ensures forall n :: n != name && n in fields ==> fields[n] == old(fields)[n]
    {
      fields := fields[name := value];
    }

    /** `forEach(msg::setHeader)` over a configured map. The loop takes the
        names in an arbitrary order; the result is the same whatever the order:
        every injected header is set to its configured value, and every other
        header is left as it was. */
    method Inject(inject: map<string, string>)
      modifies this
      ensures fields == old(fields) + inject
      ensures forall n :: n in inject ==> n in fields && fields[n] == inject[n]
      ensures forall n :: n !in inject ==> (n in fields <==> n in old(fields))
      ensures forall n :: n !in inject && n in fields ==> fields[n] == old(fields)[n]
    {
      var pending := inject.Keys;
      while pending != {}
        invariant pending <= inject.Keys
        invariant fields == old(fields) + (inject - pending)
        decreases pending
      {
        var name :| name in pending;
        Set(name, inject[name]);
        pending := pending - {name};
      }
      assert inject - {} == inject;
    }

    /** The `for` loop of `copyResponse`: `setHeader` for each upstream header,
        in the order the upstream response lists them. */
    method CopyAll(hs: seq<Header>)
      modifies this
      ensures fields == SetAll(old(fields), hs)
    {
      for i := 0 to |hs|
        invariant fields == SetAll(old(fields), hs[..i])
      {
        assert hs[..i + 1][..i] == hs[..i];
        Set(hs[i].0, hs[i].1);
      }
      assert hs[..|hs|] == hs;
    }
  }
}

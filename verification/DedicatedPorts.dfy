/** The choice of a dedicated port at registration: random draws first, then a scan of the range. */
module DedicatedPorts {
  import opened Types

  /** The ports from lo to hi, in order. */
  function Range(lo: Port, hi: Port): (r: seq<Port>)
    ensures |r| == if lo <= hi then hi - lo + 1 else 0
    ensures forall i :: 0 <= i < |r| ==> r[i] == lo + i
    ensures forall p :: p in r <==> lo <= p <= hi
    decreases hi - lo
  {
    if lo > hi then [] else if lo == hi then [lo] else [lo] + Range(lo + 1, hi)
  }

  /** The port a draw of a random 128-bit value stands for. It never reaches hi. */
  function Drawn(draw: nat, lo: Port, hi: Port): (p: Port)
    requires lo < hi
    ensures lo <= p < hi
  {
    draw % (hi - lo) + lo
  }

  /** The draw is a multiple of the width of the range and the offset of its port. With the bounds of Drawn this
      fixes the port. */
  lemma DrawnExact(draw: nat, lo: Port, hi: Port) returns (q: nat)
    requires lo < hi
    ensures draw == q * (hi - lo) + (Drawn(draw, lo, hi) - lo)
  {
    q := draw / (hi - lo);
  }

  function Draws(draws: seq<nat>, lo: Port, hi: Port): (r: seq<Port>)
    requires lo < hi
    ensures |r| == |draws| && forall i :: 0 <= i < |r| ==> r[i] == Drawn(draws[i], lo, hi)
  {
    seq(|draws|, i requires 0 <= i < |draws| => Drawn(draws[i], lo, hi))
  }

  /** Every port tried, in the order in which it is tried. */
  function Candidates(draws: seq<nat>, lo: Port, hi: Port): seq<Port>
    requires lo < hi
  {
    Draws(draws, lo, hi) + Range(lo, hi)
  }

  /** The first port of a list that is not taken. */
  function FirstFree(ports: seq<Port>, taken: set<Port>): (r: Option<Port>)
    ensures r.Some? ==> r.value in ports && r.value !in taken
    ensures r.None? <==> forall p :: p in ports ==> p in taken
  {
    if ports == [] then None
    else if ports[0] !in taken then Some(ports[0])
    else FirstFree(ports[1..], taken)
  }

  /** The scan order decides: the port at index i is chosen when all before it are taken. */
  lemma {:induction false} FirstFreeAt(ports: seq<Port>, taken: set<Port>, i: nat)
    requires i < |ports| && ports[i] !in taken
    requires forall j :: 0 <= j < i ==> ports[j] in taken
    ensures FirstFree(ports, taken) == Some(ports[i])
  {
    if i > 0 {
      assert ports[0] in taken;
      forall j | 0 <= j < i - 1 ensures ports[1..][j] in taken {
        assert ports[1..][j] == ports[j + 1];
      }
      FirstFreeAt(ports[1..], taken, i - 1);
    }
  }

  /** `generate_unique_dedicated_port`: None is its error. No sum leaves 16 bits, since the result type
      of Drawn is Port and the scan stops at hi. */
  method GenerateUniqueDedicatedPort(taken: set<Port>, lo: Port, hi: Port, draws: seq<nat>) returns (r: Option<Port>)
    requires lo < hi
    ensures r == FirstFree(Candidates(draws, lo, hi), taken)
    ensures r.Some? ==> lo <= r.value <= hi && r.value !in taken
    ensures r.None? <==> forall p: Port :: lo <= p <= hi ==> p in taken
  {
    ghost var tried := Candidates(draws, lo, hi);
    for i := 0 to |draws|
      invariant forall j :: 0 <= j < i ==> tried[j] in taken
    {
      var port := Drawn(draws[i], lo, hi);
      assert tried[i] == port;
      if port !in taken {
        FirstFreeAt(tried, taken, i);
        return Some(port);
      }
    }
    for p := lo to hi + 1
      invariant forall j :: 0 <= j < |draws| + (p - lo) ==> tried[j] in taken
    {
      assert tried[|draws| + (p - lo)] == p;
      if p !in taken {
        FirstFreeAt(tried, taken, |draws| + (p - lo));
        return Some(p);
      }
    }
    AllTaken(draws, lo, hi, taken);
    return None;
  }

  lemma AllTaken(draws: seq<nat>, lo: Port, hi: Port, taken: set<Port>)
    requires lo < hi
    requires forall p :: p in Candidates(draws, lo, hi) ==> p in taken
    ensures FirstFree(Candidates(draws, lo, hi), taken) == None
    ensures forall p: Port :: lo <= p <= hi ==> p in taken
  {
    forall p: Port | lo <= p <= hi ensures p in taken {
      assert p in Range(lo, hi);
    }
  }
}

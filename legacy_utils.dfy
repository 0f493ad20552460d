/** `connect_chain`: wiring a sequence of gates one after another. */
module LegacyUtils {
  import opened Wrappers
  import opened Bundles
  import opened Graph
  import opened LegacyGates

  /** The link from each thing's outputs to the next thing's inputs, in order; fewer than two things give no link at all. */
  function ChainLinks(things: seq<GateNodes>): (links: seq<Connection>)
    ensures |things| < 2 ==> links == []
    ensures |things| >= 2 ==> |links| == |things| - 1
    ensures forall i :: 0 <= i < |links| ==> links[i] == Connection(things[i].outputs, things[i + 1].inputs)
  {
    if |things| < 2 then [] else seq(|things| - 1, i requires 0 <= i < |things| - 1 => Connection(things[i].outputs, things[i + 1].inputs))
  }

  /** A link `connect` accepts. */
  predicate WellTyped(c: Connection)
  {
    TypeOf(c.start) == TypeOf(c.end)
  }

  /** How many links, from the front, `connect` accepts before the first one it refuses. */
  function AcceptedPrefix(links: seq<Connection>): (n: nat)
    ensures n <= |links|
    ensures forall i :: 0 <= i < n ==> WellTyped(links[i])
    ensures n < |links| ==> !WellTyped(links[n])
  {
    if links == [] || !WellTyped(links[0]) then 0 else 1 + AcceptedPrefix(links[1..])
  }

  /**
   * `connect_chain(context, *things)`: connects each thing's outputs to
   * the next thing's inputs, in order. At the first pair of different
   * types it stops with that error; the links before it stay made.
   * Repeating a thing, as in a ring that passes the same gate first and
   * last, changes nothing: each link is checked on its own types.
   */
  method ConnectChain(ctx: Context, things: seq<GateNodes>) returns (r: Outcome<BuildError>)
    requires forall i :: 0 <= i < |things| ==> CanonicalBundle(things[i].inputs) && CanonicalBundle(things[i].outputs)
    modifies ctx
    ensures ctx.connections == old(ctx.connections) + ChainLinks(things)[..AcceptedPrefix(ChainLinks(things))]
    ensures r.Pass? <==> AcceptedPrefix(ChainLinks(things)) == |ChainLinks(things)|
    ensures r.Fail? ==> var bad := ChainLinks(things)[AcceptedPrefix(ChainLinks(things))];
      r.error == TypeMismatch(TypeOf(bad.start), TypeOf(bad.end))
    ensures ctx.toplevel == old(ctx.toplevel)
  {
    var links := ChainLinks(things);
    var i := 0;
    while i + 1 < |things|
      invariant 0 <= i <= |links|
      invariant |things| >= 2 ==> i <= |things| - 1
      invariant forall j :: 0 <= j < i ==> WellTyped(links[j])
      invariant ctx.connections == old(ctx.connections) + links[..i]
      invariant ctx.toplevel == old(ctx.toplevel)
    {
      var link := links[i];
      assert link.start == things[i].outputs && link.end == things[i + 1].inputs;
      var step := ctx.Connect(link.start, link.end);
      if step.Fail? {
        PrefixAt(links, i);
        return step;
      }
      assert links[..i + 1] == links[..i] + [links[i]];
      i := i + 1;
    }
    PrefixAt(links, i);
    r := Pass;
  }

  /** When the first `i` links are accepted and link `i` is refused or absent, the accepted prefix has length `i`. */
  lemma PrefixAt(links: seq<Connection>, i: nat)
    requires i <= |links|
    requires forall j :: 0 <= j < i ==> WellTyped(links[j])
    requires i < |links| ==> !WellTyped(links[i])
    ensures AcceptedPrefix(links) == i
  {
  }
}

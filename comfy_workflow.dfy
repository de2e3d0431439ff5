/**
 * `update_workflow_seeds`: before a ComfyUI workflow is queued, the seed
 * inputs of its nodes are overwritten with fresh random numbers so that
 * every run generates something new.
 *
 * A workflow is a dictionary from node id to node; a node has an optional
 * `class_type` and an optional `inputs` dictionary. The four scripts that
 * reseed a workflow use three variants of the loop, told apart here by a
 * `SeedPolicy`. `random.randint(1, 2**32 - 1)` is a nondeterministic choice
 * of a number in that range.
 */
module ComfyWorkflow {
  import opened Common

  /** A node input: a number, a text, or a link to another node's output slot. */
  datatype Value = Number(n: int) | Text(s: string) | Link(source: string, slot: int)

  datatype Node = Node(classType: Option<string>, inputs: Option<map<string, Value>>)

  datatype SeedPolicy =
    | SamplersOnly  // frames_to_video, create_video_with_image: KSampler nodes, seed and noise_seed
    | SeedOnly      // create_audio_with_voice: every node, seed only
    | AllNodes      // upscale_image_default: every node, seed and noise_seed

  /** `2**32 - 1`, the largest seed `randint` may return. */
  const SeedMax: int := 0x1_0000_0000 - 1

  predicate FreshSeed(v: Value) {
    v.Number? && 1 <= v.n <= SeedMax
  }

  /** The input names a policy overwrites. */
  function SeedKeys(p: SeedPolicy): set<string> {
    if p == SeedOnly then {"seed"} else {"seed", "noise_seed"}
  }

  predicate IsSampler(classType: Option<string>) {
    classType == Some("KSampler") || classType == Some("KSamplerAdvanced")
  }

  /** Whether a policy looks at a node at all. */
  predicate Targets(p: SeedPolicy, node: Node) {
    p != SamplersOnly || IsSampler(node.classType)
  }

  /** What one pass may do to one node: its class type and the set of its
      input names stay as they were; an input named by the policy, on a node
      the policy targets, holds a fresh seed; every other input is untouched. */
  predicate Reseeded(p: SeedPolicy, before: Node, after: Node) {
    after.classType == before.classType
    && after.inputs.Some? == before.inputs.Some?
    && (before.inputs.Some? ==>
          after.inputs.value.Keys == before.inputs.value.Keys
          && forall k :: k in before.inputs.value ==>
               if Targets(p, before) && k in SeedKeys(p) then FreshSeed(after.inputs.value[k])
               else after.inputs.value[k] == before.inputs.value[k])
  }

  /** The loop body for one node, given the numbers `randint` returned for
      `seed` and `noise_seed`. A key that is absent is not added; a node
      without `inputs` reads as `{}` and is left alone. */
  function ReseedNode(p: SeedPolicy, node: Node, seedDraw: int, noiseDraw: int): (r: Node)
    requires 1 <= seedDraw <= SeedMax && 1 <= noiseDraw <= SeedMax
    ensures Reseeded(p, node, r)
  {
    if !Targets(p, node) || node.inputs.None? then node
    else
      var ins := node.inputs.value;
      var withSeed := if "seed" in ins then ins["seed" := Number(seedDraw)] else ins;
      var withNoise := if p != SeedOnly && "noise_seed" in withSeed
                       then withSeed["noise_seed" := Number(noiseDraw)] else withSeed;
      node.(inputs := Some(withNoise))
  }

  /** Reseeding twice is still a reseeding of the original: the scripts may
      call the updater on a workflow that was already updated. */
  lemma ReseededTwice(p: SeedPolicy, a: Node, b: Node, c: Node)
    requires Reseeded(p, a, b) && Reseeded(p, b, c)
    ensures Reseeded(p, a, c)
  {
    assert Targets(p, a) == Targets(p, b);
  }

  /** A node with no seed input comes out exactly as it went in, whatever
      the draws. */
  lemma {:induction false} NoSeedNoChange(p: SeedPolicy, node: Node, seedDraw: int, noiseDraw: int)
    requires 1 <= seedDraw <= SeedMax && 1 <= noiseDraw <= SeedMax
    requires node.inputs.None? || (forall k :: k in SeedKeys(p) ==> k !in node.inputs.value)
    ensures ReseedNode(p, node, seedDraw, noiseDraw) == node
  {
    if Targets(p, node) && node.inputs.Some? {
      assert "seed" in SeedKeys(p);
      assert p != SeedOnly ==> "noise_seed" in SeedKeys(p);
      assert node.(inputs := Some(node.inputs.value)) == node;
    }
  }

  /** The three variants differ as the scripts do: a sampler node loses
      `noise_seed` only under the two-key policies, and a non-sampler node
      is reseeded by every policy except `SamplersOnly`. */
  lemma PolicyDifferences(seedDraw: int, noiseDraw: int, n0: int, s0: int)
    requires 1 <= seedDraw <= SeedMax && 1 <= noiseDraw <= SeedMax
    requires n0 != noiseDraw && s0 != seedDraw
    ensures var sampler := Node(Some("KSampler"), Some(map["seed" := Number(s0), "noise_seed" := Number(n0)]));
            ReseedNode(SeedOnly, sampler, seedDraw, noiseDraw).inputs.value["noise_seed"] == Number(n0)
            && ReseedNode(AllNodes, sampler, seedDraw, noiseDraw).inputs.value["noise_seed"] == Number(noiseDraw)
    ensures var loader := Node(Some("VAELoader"), Some(map["seed" := Number(s0)]));
            ReseedNode(SamplersOnly, loader, seedDraw, noiseDraw) == loader
            && ReseedNode(SeedOnly, loader, seedDraw, noiseDraw).inputs.value["seed"] == Number(seedDraw)
            && ReseedNode(AllNodes, loader, seedDraw, noiseDraw).inputs.value["seed"] == Number(seedDraw)
  {
  }

  /** The workflow dictionary the scripts build and then reseed in place;
      `update_workflow_seeds` returns the very object it was given, so the
      caller sees the update through its own reference. */
  class Workflow {
    var nodes: map<string, Node>

    constructor(nodes: map<string, Node>)
      ensures this.nodes == nodes
    {
      this.nodes := nodes;
    }

    /** One pass over every node, as the policy's variant of the loop does. */
    method UpdateSeeds(p: SeedPolicy)
      modifies this
      ensures nodes.Keys == old(nodes).Keys
      ensures forall id :: id in nodes ==> Reseeded(p, old(nodes)[id], nodes[id])
    {
      var todo := nodes.Keys;
      ghost var before := nodes;
      while todo != {}
        invariant todo <= nodes.Keys == before.Keys
        invariant forall id :: id in todo ==> nodes[id] == before[id]
        invariant forall id :: id in nodes && id !in todo ==> Reseeded(p, before[id], nodes[id])
        decreases |todo|
      {
        var id :| id in todo;
        var seedDraw :| 1 <= seedDraw <= SeedMax;
        var noiseDraw :| 1 <= noiseDraw <= SeedMax;
        nodes := nodes[id := ReseedNode(p, nodes[id], seedDraw, noiseDraw)];
        todo := todo - {id};
      }
    }
  }
}

/**
 * The production build's vendor splitting: `manualChunks` puts every module
 * under `node_modules` into one of five vendor chunks, by the first of four
 * substring tests its id passes, and leaves every other module to the bundler.
 */
module ViteConfig {
  import opened Wrappers
  import opened Strings

  const VendorReact: string := "vendor-react"
  const VendorGsap: string := "vendor-gsap"
  const VendorThree: string := "vendor-three"
  const VendorEmailjs: string := "vendor-emailjs"
  const VendorOther: string := "vendor-other"

  /** Every chunk name the function can give. */
  const VendorChunks: set<string> := {VendorReact, VendorGsap, VendorThree, VendorEmailjs, VendorOther}

  /** `manualChunks(id)`; `None` is the `undefined` that lets the bundler decide. */
  function ManualChunks(id: string): (chunk: Option<string>)
    ensures chunk.None? <==> !Contains(id, "node_modules")
    ensures chunk.Some? ==> chunk.value in VendorChunks
  {
    if Contains(id, "node_modules") then
      if Contains(id, "react") || Contains(id, "react-dom") then Some(VendorReact)
      else if Contains(id, "gsap") then Some(VendorGsap)
      else if Contains(id, "three") then Some(VendorThree)
      else if Contains(id, "@emailjs") then Some(VendorEmailjs)
      else Some(VendorOther)
    else None
  }

  // ---------------------------------------------------------------------------
  // The same classification as an ordered rule list
  // ---------------------------------------------------------------------------

  /** The substrings tested, in the order they are tested. */
  const Patterns: seq<string> := ["react", "gsap", "three", "@emailjs"]

  /** The chunk each pattern sends its modules to. */
  const Names: seq<string> := [VendorReact, VendorGsap, VendorThree, VendorEmailjs]

  /** The chunk of the first pattern from `k` on that `id` contains, or the catch-all. */
  function FirstMatch(id: string, k: nat): (name: string)
    requires k <= |Patterns|
    ensures name in VendorChunks
    ensures name == VendorOther <==> forall j :: k <= j < |Patterns| ==> !Contains(id, Patterns[j])
    decreases |Patterns| - k
  {
    if k == |Patterns| then VendorOther
    else if Contains(id, Patterns[k]) then Names[k]
    else FirstMatch(id, k + 1)
  }

  /** `react-dom` contains `react`, so the second half of the first test never decides anything. */
  lemma ReactDomTestIsRedundant(id: string)
    ensures Contains(id, "react") || Contains(id, "react-dom") <==> Contains(id, "react")
  {
    if Contains(id, "react-dom") {
      assert "react-dom" == "react" + "-dom";
      ContainsPrefixOfNeedle(id, "react", "-dom");
    }
  }

  /** The chain of tests is the first-match rule list over node modules. */
  lemma {:induction false} ManualChunksIsFirstMatch(id: string)
    ensures ManualChunks(id) == if Contains(id, "node_modules") then Some(FirstMatch(id, 0)) else None
  {
    ReactDomTestIsRedundant(id);
  }

  /**
   * A node module goes to the chunk of pattern `k` exactly when its id contains
   * that pattern and none tested before it.
   */
  lemma {:induction false} ChunkIsFirstMatchingPattern(id: string, k: nat)
    requires k < |Patterns|
    ensures ManualChunks(id) == Some(Names[k]) <==>
              Contains(id, "node_modules") && Contains(id, Patterns[k])
              && forall j :: 0 <= j < k ==> !Contains(id, Patterns[j])
  {
    ManualChunksIsFirstMatch(id);
    FirstMatchIsFirst(id, 0, k);
  }

  lemma {:induction false} FirstMatchIsFirst(id: string, from: nat, k: nat)
    requires from <= k < |Patterns|
    ensures FirstMatch(id, from) == Names[k] <==>
              Contains(id, Patterns[k]) && forall j :: from <= j < k ==> !Contains(id, Patterns[j])
    decreases k - from
  {
    if from < k {
      FirstMatchIsFirst(id, from + 1, k);
      if Contains(id, Patterns[from]) {
        assert Names[from] != Names[k];
      }
    }
  }

  /** A node module that contains none of the four patterns goes to `vendor-other`, and only such a module does. */
  lemma {:induction false} OtherIsTheCatchAll(id: string)
    ensures ManualChunks(id) == Some(VendorOther) <==>
              Contains(id, "node_modules") && forall j :: 0 <= j < |Patterns| ==> !Contains(id, Patterns[j])
  {
    ManualChunksIsFirstMatch(id);
  }

  /**
   * The order matters: a package whose path names both React and Three, such
   * as the React renderer for Three.js, is put with React.
   */
  lemma ReactThreeRendererGoesWithReact()
    ensures var id := "node_modules/@react-three/fiber";
            Contains(id, "three") && ManualChunks(id) == Some(VendorReact)
  {
    var id := "node_modules/@react-three/fiber";
    assert id[..12] == "node_modules";
    assert id[14..19] == "react";
    OccurrenceGivesContains(id, "react", 14);
    assert id[20..25] == "three";
    OccurrenceGivesContains(id, "three", 20);
  }
}

/** JSON values and the merge patch of section 2 of RFC 7396, the format in which
    kubelet-lite reports pod status. */
module Json {
  datatype Json =
    | JNull
    | JBool(b: bool)
    | JNum(n: int)
    | JStr(s: string)
    | JArr(items: seq<Json>)
    | JObj(fields: map<string, Json>)

  // The members of an object; anything else counts as an object without members.
  function Fields(j: Json): map<string, Json> {
    if j.JObj? then j.fields else map[]
  }

  // The member under k, or null when there is none.
  function Member(j: Json, k: string): Json {
    if k in Fields(j) then Fields(j)[k] else JNull
  }

  function MergePatch(target: Json, patch: Json): Json
    decreases patch
  {
    if patch.JObj? then
      JObj(map k | k in Fields(target).Keys + patch.fields.Keys
                   && !(k in patch.fields && patch.fields[k].JNull?) ::
             if k in patch.fields then MergePatch(Member(target, k), patch.fields[k])
             else Fields(target)[k])
    else
      patch
  }

  // Patching a second time with the same patch changes nothing.
  lemma {:induction false} MergePatchIdempotent(target: Json, patch: Json)
    ensures MergePatch(MergePatch(target, patch), patch) == MergePatch(target, patch)
    decreases patch
  {
    if patch.JObj? {
      forall k | k in patch.fields.Keys && !patch.fields[k].JNull?
        ensures MergePatch(MergePatch(Member(target, k), patch.fields[k]), patch.fields[k])
             == MergePatch(Member(target, k), patch.fields[k])
      {
        MergePatchIdempotent(Member(target, k), patch.fields[k]);
      }
    }
  }

  // What a patch makes of one member.
  lemma MergeMember(target: Json, patch: Json, k: string)
    requires patch.JObj?
    ensures Member(MergePatch(target, patch), k)
         == if k in patch.fields && !patch.fields[k].JNull? then MergePatch(Member(target, k), patch.fields[k])
            else if k in patch.fields then JNull
            else Member(target, k)
  {
  }

  // --- Sequences of patches ---

  function MergeAll(target: Json, patches: seq<Json>): Json {
    if patches == [] then target else MergePatch(MergeAll(target, patches[..|patches| - 1]), patches[|patches| - 1])
  }

  // An object that sets the member k, if at all, to something that is neither an object nor null.
  predicate SetsPlainly(patch: Json, k: string) {
    patch.JObj? && (k in patch.fields ==> !patch.fields[k].JObj? && !patch.fields[k].JNull?)
  }

  // After a sequence of patches a member is what the last one that names it says.
  lemma {:induction false} LastOneSets(target: Json, patches: seq<Json>, k: string, i: nat)
    requires forall j :: 0 <= j < |patches| ==> SetsPlainly(patches[j], k)
    requires i < |patches| && forall j :: i < j < |patches| ==> k !in Fields(patches[j])
    requires k in Fields(patches[i])
    ensures Member(MergeAll(target, patches), k) == patches[i].fields[k]
    decreases |patches|
  {
    var n := |patches| - 1;
    MergeMember(MergeAll(target, patches[..n]), patches[n], k);
    assert SetsPlainly(patches[n], k);
    if i < n {
      LastOneSets(target, patches[..n], k, i);
    }
  }

  // It is missing or null only if it was before and none names it.
  lemma {:induction false} NoneSets(target: Json, patches: seq<Json>, k: string)
    requires forall j :: 0 <= j < |patches| ==> SetsPlainly(patches[j], k)
    ensures Member(MergeAll(target, patches), k) == JNull <==>
              Member(target, k) == JNull && forall j :: 0 <= j < |patches| ==> k !in Fields(patches[j])
  {
    if patches != [] {
      var n := |patches| - 1;
      var before := patches[..n];
      MergeMember(MergeAll(target, before), patches[n], k);
      assert SetsPlainly(patches[n], k);
      NoneSets(target, before, k);
      if forall j :: 0 <= j < n ==> k !in Fields(before[j]) {
        forall j | 0 <= j < n ensures k !in Fields(patches[j]) { assert before[j] == patches[j]; }
      }
    }
  }
}

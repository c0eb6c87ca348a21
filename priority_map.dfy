/** A priority-ordered substring-to-template map with an identity fallback: the
    keys are tested in order, the first one that occurs in the message picks
    its template, and a message with no key is returned as it is. Both message
    formatters have this shape. */
module PriorityMap {
  import opened PyStr
  import opened Outcomes

  /** The index of the first key, from index `i` on, that occurs in `s`. */
  function FirstKeyFrom(s: string, keys: seq<string>, i: nat): (k: Option<nat>)
    requires i <= |keys|
    ensures k.Some? ==> i <= k.value < |keys| && Contains(s, keys[k.value])
    ensures k.Some? ==> forall j :: i <= j < k.value ==> !Contains(s, keys[j])
    ensures k.None? ==> forall j :: i <= j < |keys| ==> !Contains(s, keys[j])
    decreases |keys| - i
  {
    if i == |keys| then None
    else if Contains(s, keys[i]) then Some(i)
    else FirstKeyFrom(s, keys, i + 1)
  }

  function FirstKey(s: string, keys: seq<string>): Option<nat> {
    FirstKeyFrom(s, keys, 0)
  }

  /** The message `s` after the map: the template of its first key, or `s`. */
  function Apply(s: string, keys: seq<string>, templates: seq<string>): string
    requires |keys| == |templates|
  {
    match FirstKey(s, keys)
    case Some(k) => templates[k]
    case None => s
  }

  /** Every key is tested before the ones after it: the first key that occurs
      decides, whatever later keys also occur. */
  lemma FirstMatchWins(s: string, keys: seq<string>, templates: seq<string>, i: nat)
    requires |keys| == |templates| && i < |keys|
    requires Contains(s, keys[i]) && forall j :: 0 <= j < i ==> !Contains(s, keys[j])
    ensures Apply(s, keys, templates) == templates[i]
  {
    var k := FirstKey(s, keys);
    assert k.Some? && k.value == i;
  }

  /** A message that contains no key passes through unchanged. */
  lemma UnmatchedUnchanged(s: string, keys: seq<string>, templates: seq<string>)
    requires |keys| == |templates|
    requires forall j :: 0 <= j < |keys| ==> !Contains(s, keys[j])
    ensures Apply(s, keys, templates) == s
  {
    assert FirstKey(s, keys).None?;
  }

  /** The result is one of the templates or the message itself, and it differs
      from the message only when the message contains a key. */
  lemma ApplyImage(s: string, keys: seq<string>, templates: seq<string>)
    requires |keys| == |templates|
    ensures Apply(s, keys, templates) == s || Apply(s, keys, templates) in templates
    ensures Apply(s, keys, templates) != s ==> exists j :: 0 <= j < |keys| && Contains(s, keys[j])
  {
    match FirstKey(s, keys)
    case Some(k) => assert Apply(s, keys, templates) == templates[k];
    case None =>
  }

  /** Each template is mapped to itself. */
  predicate Stable(keys: seq<string>, templates: seq<string>)
    requires |keys| == |templates|
  {
    forall i :: 0 <= i < |templates| ==> Apply(templates[i], keys, templates) == templates[i]
  }

  /** With stable templates, applying the map twice is applying it once. */
  lemma ApplyIdempotent(s: string, keys: seq<string>, templates: seq<string>)
    requires |keys| == |templates| && Stable(keys, templates)
    ensures Apply(Apply(s, keys, templates), keys, templates) == Apply(s, keys, templates)
  {
    match FirstKey(s, keys)
    case Some(k) => assert Apply(templates[k], keys, templates) == templates[k];
    case None =>
  }

  /** The template of key `i` is stable when it contains no earlier key and
      either contains key `i` itself or no key at all. */
  lemma TemplateStable(keys: seq<string>, templates: seq<string>, i: nat)
    requires |keys| == |templates| && i < |keys|
    requires forall j :: 0 <= j < i ==> !Contains(templates[i], keys[j])
    requires Contains(templates[i], keys[i]) || forall j :: i <= j < |keys| ==> !Contains(templates[i], keys[j])
    ensures Apply(templates[i], keys, templates) == templates[i]
  {
    if Contains(templates[i], keys[i]) {
      FirstMatchWins(templates[i], keys, templates, i);
    } else {
      UnmatchedUnchanged(templates[i], keys, templates);
    }
  }
}

/** The admin's product editor: the lists it edits in place (images, tags, variations and
    their options, personalizations) and the `arrayMove` that reorders images. */
module ProductEditScreen {
  import opened Js
  import opened ProductModel

  /** ---- `arrayMove` ---- */

  /** Where `splice(from, ...)` starts on an array of `len` elements: a negative start counts
      from the end, and a start past the end is the end. */
  function SpliceStart(from: int, len: nat): (st: nat)
    ensures st <= len
    ensures 0 <= from <= len ==> st == from
  {
    if from < 0 then (if len + from < 0 then 0 else len + from) else if from > len then len else from
  }

  /** `arrayMove(array, from, to)` on the array's contents: a target before 0 or past the end
      changes nothing; otherwise the element at `from` is cut out and put back at `to`,
      which `splice` clamps to the last position. */
  function Moved<T>(s: seq<T>, from: int, to: int): (r: seq<T>)
    ensures |r| == |s|
  {
    if to > |s| || to < 0 then s
    else
      var st := SpliceStart(from, |s|);
      if st == |s| then s
      else
        var rest := s[..st] + s[st + 1..];
        var t := if to > |rest| then |rest| else to;
        rest[..t] + [s[st]] + rest[t..]
  }

  /** The contents after a move, position by position: the moved element lands at `t`, and
      the ones between its old and its new place shift by one towards where it was. */
  lemma MovedAt<T>(s: seq<T>, from: int, to: int, k: nat)
    requires 0 <= to <= |s| && SpliceStart(from, |s|) < |s| && k < |s|
    ensures var st := SpliceStart(from, |s|);
      var t := if to > |s| - 1 then |s| - 1 else to;
      Moved(s, from, to)[k] ==
        if k == t then s[st]
        else if st <= k < t then s[k + 1]
        else if t < k <= st then s[k - 1]
        else s[k]
  {
  }

  /** A move only reorders: nothing is lost, nothing is added. */
  lemma MovedPermutes<T>(s: seq<T>, from: int, to: int)
    ensures multiset(Moved(s, from, to)) == multiset(s)
  {
    if 0 <= to <= |s| && SpliceStart(from, |s|) < |s| {
      var st := SpliceStart(from, |s|);
      var rest := s[..st] + s[st + 1..];
      var t := if to > |rest| then |rest| else to;
      var x := s[st];
      assert s == s[..st] + [x] + s[st + 1..];
      assert multiset(s) == multiset(s[..st]) + multiset{x} + multiset(s[st + 1..]);
      assert multiset(rest) == multiset(s[..st]) + multiset(s[st + 1..]);
      assert rest == rest[..t] + rest[t..];
      assert multiset(rest) == multiset(rest[..t]) + multiset(rest[t..]);
      assert Moved(s, from, to) == rest[..t] + [x] + rest[t..];
      assert multiset(Moved(s, from, to)) == multiset(rest[..t]) + multiset{x} + multiset(rest[t..]);
      assert multiset(Moved(s, from, to)) == multiset(rest) + multiset{x};
    }
  }

  /** A move to a valid target puts the element from `from` at min(to, length - 1). */
  lemma MovedLands<T>(s: seq<T>, from: nat, to: int)
    requires from < |s| && 0 <= to <= |s|
    ensures Moved(s, from, to)[if to > |s| - 1 then |s| - 1 else to] == s[from]
  {
    MovedAt(s, from, to, if to > |s| - 1 then |s| - 1 else to);
  }

  /** The arrows of the first image going left and of the last image going right do nothing,
      and a target outside 0 to the length does nothing either. */
  lemma EdgeMovesChangeNothing<T>(s: seq<T>, to: int)
    requires |s| > 0
    ensures Moved(s, 0, -1) == s
    ensures Moved(s, |s| - 1, |s|) == s
    ensures to < 0 || to > |s| ==> Moved(s, 0, to) == s
  {
    assert (s[..|s| - 1] + s[|s|..])[..|s| - 1] + [s[|s| - 1]] == s;
  }

  /** Moving an element one place right and then back one place left restores the list. */
  lemma MoveRightThenLeft<T>(s: seq<T>, i: nat)
    requires i + 1 < |s|
    ensures Moved(Moved(s, i, i + 1), i + 1, i) == s
  {
    var m := Moved(s, i, i + 1);
    forall k | 0 <= k < |s| ensures m[k] == if k == i then s[i + 1] else if k == i + 1 then s[i] else s[k] {
      MovedAt(s, i, i + 1, k);
    }
    forall k | 0 <= k < |s| ensures Moved(m, i + 1, i)[k] == s[k] {
      MovedAt(m, i + 1, i, k);
    }
  }

  /** `arrayMove` as the page runs it: the array itself is changed. */
  method ArrayMove<T>(a: array<T>, from: int, to: int)
    modifies a
    ensures a[..] == Moved(old(a[..]), from, to)
  {
    if to > a.Length || to < 0 {
      return;
    }
    var st := SpliceStart(from, a.Length);
    if st == a.Length {
      return;
    }
    ghost var s := a[..];
    var t := if to > a.Length - 1 then a.Length - 1 else to;
    var x := a[st];
    if st < t {
      var i := st;
      while i < t
        invariant st <= i <= t
        invariant forall k :: 0 <= k < st ==> a[k] == s[k]
        invariant forall k :: st <= k < i ==> a[k] == s[k + 1]
        invariant forall k :: i <= k < a.Length ==> a[k] == s[k]
      {
        a[i] := a[i + 1];
        i := i + 1;
      }
    } else {
      var i := st;
      while i > t
        invariant t <= i <= st
        invariant forall k :: 0 <= k <= i ==> a[k] == s[k]
        invariant forall k :: i < k <= st ==> a[k] == s[k - 1]
        invariant forall k :: st < k < a.Length ==> a[k] == s[k]
      {
        a[i] := a[i - 1];
        i := i - 1;
      }
    }
    a[t] := x;
    forall k | 0 <= k < a.Length ensures a[k] == Moved(s, from, to)[k] {
      MovedAt(s, from, to, k);
    }
  }

  /** ---- The list handlers ---- */

  /** `list.splice(i, 1)` for an index the page takes from the list itself: the element at
      `i` goes, the rest keep their order; an index past the end removes nothing. */
  function RemoveAt<T>(s: seq<T>, i: nat): (r: seq<T>)
    ensures i < |s| ==> |r| == |s| - 1
    ensures i >= |s| ==> r == s
  {
    if i < |s| then s[..i] + s[i + 1..] else s
  }

  /** Removal keeps everything before the index and shifts everything after it down by one. */
  lemma RemoveAtKeepsOrder<T>(s: seq<T>, i: nat, k: nat)
    requires i < |s| && k < |s| - 1
    ensures RemoveAt(s, i)[k] == if k < i then s[k] else s[k + 1]
  {
  }

  /** Removal drops exactly one copy of the removed element. */
  lemma RemoveAtMultiset<T>(s: seq<T>, i: nat)
    requires i < |s|
    ensures multiset(RemoveAt(s, i)) == multiset(s) - multiset{s[i]}
  {
    assert s == s[..i] + [s[i]] + s[i + 1..];
  }

  /** The variation `addVariationHandler` appends: optional, unselected, on option 0, with
      one blank option. */
  const NewOption := VariationOption("", 0, None)
  const NewVariation := Variation("", true, false, 0, [NewOption])

  /** The personalization `addPersonalizationHandler` appends: optional, unselected, no text. */
  const NewPersonalization := Personalization("", true, false, "", 0, None)

  /** A blank variation prices nothing until it is switched on, and then only its option's 0. */
  lemma NewEntriesAreBlank()
    ensures NewVariation.isOptional && !NewVariation.isSelected && NewVariation.selectedOption == 0
    ensures |NewVariation.options| == 1 && NewVariation.options[0].additionalPrice == 0
    ensures NewPersonalization.isOptional && !NewPersonalization.isSelected && NewPersonalization.value == ""
  {
  }

  /** The editor's working copy of a product. */
  class ProductEditor {
    var images: seq<string>
    var tag: string
    var tags: seq<string>
    var variations: seq<Variation>
    var personalizations: seq<Personalization>

    /** The lists as the loaded product has them, and an empty tag input. */
    constructor(p: Product)
      ensures images == p.images && tags == p.tags && tag == ""
      ensures variations == p.variations && personalizations == p.personalizations
    {
      images, tag, tags := p.images, "", p.tags;
      variations, personalizations := p.variations, p.personalizations;
    }

    /** An uploaded image's path goes to the end of the images. */
    method AddImage(path: string)
      modifies this
      ensures images == old(images) + [path]
      ensures tags == old(tags) && tag == old(tag) && variations == old(variations) && personalizations == old(personalizations)
    {
      images := images + [path];
    }

    method AddVariation()
      modifies this
      ensures variations == old(variations) + [NewVariation]
      ensures images == old(images) && tags == old(tags) && tag == old(tag) && personalizations == old(personalizations)
    {
      variations := variations + [NewVariation];
    }

    method AddPersonalization()
      modifies this
      ensures personalizations == old(personalizations) + [NewPersonalization]
      ensures images == old(images) && tags == old(tags) && tag == old(tag) && variations == old(variations)
    {
      personalizations := personalizations + [NewPersonalization];
    }

    /** `addOptionHandler(i)`: one blank option more on variation `i`, and only there. A
        variation that is not there makes the handler fail, hence the precondition. */
    method AddOption(i: nat)
      requires i < |variations|
      modifies this
      ensures variations == old(variations)[i := old(variations)[i].(options := old(variations)[i].options + [NewOption])]
      ensures |variations[i].options| == |old(variations)[i].options| + 1
      ensures images == old(images) && tags == old(tags) && tag == old(tag) && personalizations == old(personalizations)
    {
      var v := variations[i];
      variations := variations[i := v.(options := v.options + [NewOption])];
    }

    /** The plus button of the tags: the typed tag is appended and the input cleared. */
    method AddTag()
      modifies this
      ensures tags == old(tags) + [old(tag)] && tag == ""
      ensures images == old(images) && variations == old(variations) && personalizations == old(personalizations)
    {
      tags := tags + [tag];
      tag := "";
    }

    /** The default checkbox of option `j` makes it the variation's selected option. */
    method SetDefaultOption(i: nat, j: nat)
      requires i < |variations|
      modifies this
      ensures variations == old(variations)[i := old(variations)[i].(selectedOption := j)]
      ensures images == old(images) && tags == old(tags) && tag == old(tag) && personalizations == old(personalizations)
    {
      variations := variations[i := variations[i].(selectedOption := j)];
    }

    method DeleteImage(i: nat)
      modifies this
      ensures images == RemoveAt(old(images), i)
      ensures tags == old(tags) && tag == old(tag) && variations == old(variations) && personalizations == old(personalizations)
    {
      images := RemoveAt(images, i);
    }

    method DeleteTag(i: nat)
      modifies this
      ensures tags == RemoveAt(old(tags), i)
      ensures images == old(images) && tag == old(tag) && variations == old(variations) && personalizations == old(personalizations)
    {
      tags := RemoveAt(tags, i);
    }

    method DeleteVariation(i: nat)
      modifies this
      ensures variations == RemoveAt(old(variations), i)
      ensures images == old(images) && tags == old(tags) && tag == old(tag) && personalizations == old(personalizations)
    {
      variations := RemoveAt(variations, i);
    }

    /** Removing option `j` of variation `i` leaves its selected index as it was, so it may
        now name another option or none. */
    method DeleteOption(i: nat, j: nat)
      requires i < |variations|
      modifies this
      ensures variations == old(variations)[i := old(variations)[i].(options := RemoveAt(old(variations)[i].options, j))]
      ensures variations[i].selectedOption == old(variations)[i].selectedOption
      ensures images == old(images) && tags == old(tags) && tag == old(tag) && personalizations == old(personalizations)
    {
      var v := variations[i];
      variations := variations[i := v.(options := RemoveAt(v.options, j))];
    }

    method DeletePersonalization(i: nat)
      modifies this
      ensures personalizations == RemoveAt(old(personalizations), i)
      ensures images == old(images) && tags == old(tags) && tag == old(tag) && variations == old(variations)
    {
      personalizations := RemoveAt(personalizations, i);
    }

    /** The arrows under image `i`: the images are copied into an array, moved in place and
        copied back. */
    method MoveImage(i: nat, to: int)
      modifies this
      ensures images == Moved(old(images), i, to)
      ensures tags == old(tags) && tag == old(tag) && variations == old(variations) && personalizations == old(personalizations)
    {
      var a := new string[|images|](k requires 0 <= k < |images| reads this => images[k]);
      assert a[..] == images;
      ArrayMove(a, i, to);
      images := a[..];
    }
  }
}

/** Layer lookup by name or identifier (lib/find.js). */
module Lookup {
  import opened Wrappers
  import opened Js
  import opened Model

  /** `find`'s outcome: the (normalised) layer, `undefined`, or a `TypeError`. */
  datatype Found = Found(layer: Layer) | NotFound | Raises(failure: Failure)

  predicate Matches(l: Layer, target: string)
  {
    l.name == Some(target) || l.identifier == Some(target)
  }

  /** `normalize(layer)`: a layer with a falsy name and a truthy identifier takes the identifier
      as its name; nothing else changes. */
  function NormalizeLayer(l: Layer): (r: Layer)
    ensures r.name == (if !Truthy(l.name) && Truthy(l.identifier) then l.identifier else l.name)
    ensures r.(name := l.name) == l
  {
    if !Truthy(l.name) && Truthy(l.identifier) then l.(name := l.identifier) else l
  }

  /** Where a `for..of` over the entries stops. */
  datatype Stop = Hit(i: nat) | Hole(i: nat) | Miss

  /** No entry before `n` is missing or matches. */
  predicate PassedOver(es: seq<Option<Layer>>, target: string, n: nat)
    requires n <= |es|
  {
    forall j :: 0 <= j < n ==> es[j].Some? && !Matches(es[j].value, target)
  }

  /** The first entry that matches (`Hit`) or is `null`/`undefined` (`Hole`), scanning in order. */
  function Scan(es: seq<Option<Layer>>, target: string): (r: Stop)
    ensures r.Hit? ==> r.i < |es| && es[r.i].Some? && Matches(es[r.i].value, target) && PassedOver(es, target, r.i)
    ensures r.Hole? ==> r.i < |es| && es[r.i].None? && PassedOver(es, target, r.i)
    ensures r.Miss? ==> PassedOver(es, target, |es|)
  {
    if |es| == 0 then Miss
    else if es[0].None? then Hole(0)
    else if Matches(es[0].value, target) then Hit(0)
    else match Scan(es[1..], target)
      case Hit(i) => Hit(i + 1)
      case Hole(i) => Hole(i + 1)
      case Miss => Miss
  }

  /** The loop over an array of layers; reading `.name` of a `null` entry throws. */
  function FindIn(es: seq<Option<Layer>>, target: string): Found
  {
    match Scan(es, target)
    case Hit(i) => Found(NormalizeLayer(es[i].value))
    case Hole(_) => Raises(Failure(TypeError, "Cannot read properties of undefined (reading 'name')"))
    case Miss => NotFound
  }

  /** `find(layers, target)`. A record with a truthy `abstract` and a `layers` array is searched
      through the array; any other record is returned when it matches itself, and otherwise
      iterated, which throws. */
  function Find(cat: Catalog, target: string): (r: Found)
    ensures cat.LayerList? ==> r == FindIn(cat.entries, target)
    ensures cat.Config? && cat.abstractText != "" && cat.layers.Some? ==> r == FindIn(cat.layers.value, target)
    ensures cat.Config? && !(cat.abstractText != "" && cat.layers.Some?) ==>
      (Matches(cat.asLayer, target) ==> r == Found(NormalizeLayer(cat.asLayer)))
      && (!Matches(cat.asLayer, target) ==> r.Raises? && r.failure.kind == TypeError)
  {
    match cat
    case LayerList(es) => FindIn(es, target)
    case Config(self, abs, layers, _, _, _) =>
      if abs != "" && layers.Some? then FindIn(layers.value, target)
      else if Matches(self, target) then Found(NormalizeLayer(self))
      else Raises(Failure(TypeError, "layers is not iterable"))
  }

  /** Over an array, the result is the first layer whose name or identifier equals the target,
      provided no `null` entry comes before it; with no match and no hole it is `undefined`. */
  lemma FindFirst(es: seq<Option<Layer>>, target: string, i: nat)
    requires i < |es| && es[i].Some? && Matches(es[i].value, target)
    requires PassedOver(es, target, i)
    ensures FindIn(es, target) == Found(NormalizeLayer(es[i].value))
  {
    ScanFirst(es, target, i);
  }

  lemma {:induction false} ScanFirst(es: seq<Option<Layer>>, target: string, i: nat)
    requires i < |es| && es[i].Some? && Matches(es[i].value, target)
    requires PassedOver(es, target, i)
    ensures Scan(es, target) == Hit(i)
  {
    if i > 0 {
      assert es[0].Some? && !Matches(es[0].value, target);
      assert PassedOver(es[1..], target, i - 1) by {
        forall j | 0 <= j < i - 1 ensures es[1..][j].Some? && !Matches(es[1..][j].value, target) {
          assert es[1..][j] == es[j + 1];
        }
      }
      ScanFirst(es[1..], target, i - 1);
    }
  }

  lemma FindNone(es: seq<Option<Layer>>, target: string)
    requires PassedOver(es, target, |es|)
    ensures FindIn(es, target) == NotFound
  {
  }

  /** A found layer answers to a non-empty target by name or identifier. (With the empty
      target, a layer named `''` matches and is then renamed after its identifier.) */
  lemma FoundMatches(cat: Catalog, target: string)
    requires target != ""
    requires Find(cat, target).Found?
    ensures Matches(Find(cat, target).layer, target)
  {
    var es := if cat.LayerList? then cat.entries else if cat.layers.Some? then cat.layers.value else [];
    if cat.LayerList? || (cat.abstractText != "" && cat.layers.Some?) {
      var r := Scan(es, target);
      NormalizeMatches(es[r.i].value, target);
    } else {
      NormalizeMatches(cat.asLayer, target);
    }
  }

  lemma NormalizeMatches(l: Layer, target: string)
    requires target != "" && Matches(l, target)
    ensures Matches(NormalizeLayer(l), target)
  {
  }
}

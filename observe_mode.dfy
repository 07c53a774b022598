/**
 * The observation mode: the player cycles through the scene's fixed cameras
 * with LEFT and RIGHT, clicks to test a ray against every bird of the scene,
 * and every bird that has been found rises a little each frame. The model
 * keeps the mode's book-keeping (which camera is current, which transforms
 * are birds, which birds were found, how far they have risen, the counter
 * text). The ray and its sphere test are a parameter of the click.
 */
module Observe {
  import opened Seqs
  import opened Decimal
  import opened SceneGraph
  import CameraCycle

  datatype Option<T> = None | Some(value: T)

  /** The 4-character tag a transform's name starts with when it is a bird. */
  const BirdTag: string := "BIRD"

  /** How far a found bird rises along z on every frame. */
  const LiftStep: real := 0.1

  const HelpText: string := "--- SWITCH CAMERAS WITH LEFT/RIGHT ---"

  datatype Key = LeftKey | RightKey | OtherKey
  datatype MouseButton = LeftButton | OtherButton

  /** The input events the mode distinguishes. */
  datatype Event =
    | KeyDown(key: Key)
    | MouseButtonDown(button: MouseButton, x: int, y: int)
    | OtherEvent

  /** The outcome of the sphere test for the ray through pixel (x, y) from the
    * current camera, per bird: computed by the caller from the state at the click. */
  type HitTest = (int, int) -> Transform -> bool

  /** `std::string::substr(pos, count)`: at most `count` characters from `pos`
    * (a `pos` past the end would throw). */
  function Substr(s: string, pos: nat, count: nat): (r: string)
    requires pos <= |s|
    ensures |r| <= count && pos + |r| <= |s|
    ensures |r| == count || pos + |r| == |s|
    ensures r == s[pos..pos + |r|]
  {
    if pos + count <= |s| then s[pos..pos + count] else s[pos..]
  }

  /** The bird test on a name: its first four characters are "BIRD". */
  predicate IsBirdName(name: string) {
    Substr(name, 0, |BirdTag|) == BirdTag
  }

  predicate IsBird(t: Transform) {
    IsBirdName(t.name)
  }

  /** A name is a bird's name exactly when it has at least four characters and begins
    * with "BIRD": a shorter name is the whole of its own prefix and never equals the tag. */
  lemma BirdNamePrefix(name: string)
    ensures IsBirdName(name) <==> |name| >= 4 && name[..4] == "BIRD"
    ensures |name| < 4 ==> !IsBirdName(name)
  {
  }

  /** The birds of a transform list, in list order. */
  function BirdsOf(ts: seq<Transform>): seq<Transform> {
    Filter(ts, IsBird)
  }

  /** The bird list holds exactly the bird-named transforms, each as often as it occurs in the scene. */
  lemma BirdsOfExactly(ts: seq<Transform>)
    ensures forall t: Transform :: t in BirdsOf(ts) <==> t in ts && IsBirdName(t.name)
    ensures forall t: Transform :: multiset(BirdsOf(ts))[t] == if IsBirdName(t.name) then multiset(ts)[t] else 0
  {
    forall t: Transform
      ensures t in BirdsOf(ts) <==> t in ts && IsBirdName(t.name)
      ensures multiset(BirdsOf(ts))[t] == if IsBirdName(t.name) then multiset(ts)[t] else 0
    {
      FilterMember(ts, IsBird, t);
      FilterMultiplicity(ts, IsBird, t);
    }
  }

  /** The counter line drawn under the help text. */
  function CounterText(found: nat, total: nat): string {
    "FOUND " + FromNat(found) + "/" + FromNat(total) + " BIRDS"
  }

  /** Reads a counter line back into its two counts. */
  function ParseCounter(s: string): Option<(nat, nat)> {
    if |s| < 12 || s[..6] != "FOUND " || s[|s| - 6..] != " BIRDS" then None
    else
      var m := s[6..|s| - 6];
      var k := IndexOf(m, '/');
      if k < |m| && IsNumeral(m[..k]) && IsNumeral(m[k + 1..])
      then Some((ToNat(m[..k]), ToNat(m[k + 1..])))
      else None
  }

  /** The counter line shows the found count and the total count in decimal, in that order. */
  lemma {:induction false} CounterTextRoundTrip(found: nat, total: nat)
    ensures ParseCounter(CounterText(found, total)) == Some((found, total))
  {
    var a, b := FromNat(found), FromNat(total);
    var s := CounterText(found, total);
    var m := a + "/" + b;
    assert s == "FOUND " + m + " BIRDS";
    assert s[..6] == "FOUND ";
    assert s[|s| - 6..] == " BIRDS";
    assert s[6..|s| - 6] == m;
    assert m[|a|] == '/';
    forall j | 0 <= j < |a| ensures m[j] != '/' {
      assert m[j] == a[j] && IsDigit(a[j]);
    }
    assert IndexOf(m, '/') == |a|;
    assert m[..|a|] == a;
    assert m[|a| + 1..] == b;
    ToNatFromNat(found);
    ToNatFromNat(total);
  }

  /** Different counts give different counter lines. */
  lemma CounterTextInjective(f1: nat, t1: nat, f2: nat, t2: nat)
    requires CounterText(f1, t1) == CounterText(f2, t2)
    ensures f1 == f2 && t1 == t2
  {
    CounterTextRoundTrip(f1, t1);
    CounterTextRoundTrip(f2, t2);
  }

  class ObserveMode {
    /** The scene the mode observes; it outlives the mode. */
    const scene: Scene
    /** The camera the scene is drawn from. */
    var currentCamera: Camera
    /** Every bird of the scene, collected once at construction. */
    var birds: seq<Transform>
    /** Every bird that passed a click's hit test, once per passing click. */
    var foundBirds: seq<Transform>

    /** The current camera is one of the scene's; the bird list is the scene's birds;
      * every found bird is a bird. */
    ghost predicate Valid()
      reads this
    {
      && |scene.cameras| > 0
      && currentCamera in scene.cameras
      && birds == BirdsOf(scene.transforms)
      && (forall b :: b in foundBirds ==> b in birds)
    }

    /** Starts at the first camera and collects, in scene order, every transform named like a bird. */
    constructor (scene: Scene)
      requires |scene.cameras| > 0
      ensures Valid()
      ensures this.scene == scene
      ensures currentCamera == scene.cameras[0]
      ensures birds == BirdsOf(scene.transforms)
      ensures foundBirds == []
    {
      this.scene := scene;
      currentCamera := scene.cameras[0];
      var ts := scene.transforms;
      var collected: seq<Transform> := [];
      var i := 0;
      while i < |ts|
        invariant 0 <= i <= |ts|
        invariant collected == BirdsOf(ts[..i])
      {
        assert ts[..i + 1][..i] == ts[..i];
        if Substr(ts[i].name, 0, 4) == BirdTag {
          collected := collected + [ts[i]];
        }
        i := i + 1;
      }
      assert ts[..i] == ts;
      birds := collected;
      foundBirds := [];
    }

    /** The linear scan for the current camera by identity: its index, or the
      * camera count when the current camera is not in the list. */
    method FindCurrentCamera() returns (ci: nat)
      ensures ci <= |scene.cameras|
      ensures ci < |scene.cameras| ==> scene.cameras[ci] == currentCamera
      ensures forall j :: 0 <= j < ci ==> scene.cameras[j] != currentCamera
    {
      var cams := scene.cameras;
      ci := 0;
      while ci != |cams| && cams[ci] != currentCamera
        invariant ci <= |cams|
        invariant forall j :: 0 <= j < ci ==> cams[j] != currentCamera
      {
        ci := ci + 1;
      }
    }

    /** Tests the clicked ray against every bird and appends, in bird order and
      * without deduplication, every bird it hits. */
    method RaycastClick(x: int, y: int, hits: HitTest)
      requires Valid()
      modifies this`foundBirds
      ensures Valid()
      ensures foundBirds == old(foundBirds) + Filter(birds, hits(x, y))
    {
      var hit := hits(x, y);
      var i := 0;
      while i < |birds|
        invariant 0 <= i <= |birds|
        invariant foundBirds == old(foundBirds) + Filter(birds[..i], hit)
        invariant forall b :: b in foundBirds ==> b in birds
      {
        assert birds[..i + 1][..i] == birds[..i];
        if hit(birds[i]) {
          foundBirds := foundBirds + [birds[i]];
        }
        i := i + 1;
      }
      assert birds[..i] == birds;
    }

    /** LEFT and RIGHT switch cameras and report the event as handled; a left
      * click records the birds hit and, like every other event, is not reported handled. */
    method HandleEvent(evt: Event, hits: HitTest) returns (handled: bool)
      requires Valid()
      modifies this`currentCamera, this`foundBirds
      ensures Valid()
      ensures handled <==> evt == KeyDown(LeftKey) || evt == KeyDown(RightKey)
      ensures currentCamera == (
        if evt == KeyDown(LeftKey) then CameraCycle.StepLeft(scene.cameras, old(currentCamera))
        else if evt == KeyDown(RightKey) then CameraCycle.StepRight(scene.cameras, old(currentCamera))
        else old(currentCamera))
      ensures foundBirds == (
        if evt.MouseButtonDown? && evt.button == LeftButton
        then old(foundBirds) + Filter(birds, hits(evt.x, evt.y))
        else old(foundBirds))
      ensures old(foundBirds) <= foundBirds
    {
      handled := false;
      var cams := scene.cameras;
      match evt {
        case KeyDown(key) =>
          if key == LeftKey {
            var ci := FindCurrentCamera();
            if ci == 0 { ci := |cams|; }
            ci := ci - 1;
            currentCamera := cams[ci];
            handled := true;
          } else if key == RightKey {
            var ci := FindCurrentCamera();
            if ci != |cams| { ci := ci + 1; }
            if ci == |cams| { ci := 0; }
            currentCamera := cams[ci];
            handled := true;
          }
        case MouseButtonDown(button, x, y) =>
          if button == LeftButton {
            RaycastClick(x, y, hits);
          }
        case OtherEvent =>
      }
    }

    /** Once per frame: every found bird rises by the lift step once for each time
      * it is listed, whatever `elapsed` is; x and y, and every other transform, stay put. */
    method Update(elapsed: real)
      requires Valid()
      modifies foundBirds
      ensures Valid()
      ensures forall t :: t in scene.transforms ==>
        t.position == old(t.position).(z := old(t.position).z + LiftStep * (multiset(foundBirds)[t] as real))
    {
      var i := 0;
      while i < |foundBirds|
        invariant 0 <= i <= |foundBirds|
        invariant forall t :: t in scene.transforms ==>
          t.position == old(t.position).(z := old(t.position).z + LiftStep * (multiset(foundBirds[..i])[t] as real))
      {
        var b := foundBirds[i];
        assert foundBirds[..i + 1] == foundBirds[..i] + [b];
        b.position := b.position.(z := b.position.z + LiftStep);
        i := i + 1;
      }
      assert foundBirds[..i] == foundBirds;
    }

    /** The counter line the frame shows: the found count over the bird count. */
    function BirdText(): (text: string)
      reads this
      ensures ParseCounter(text) == Some((|foundBirds|, |birds|))
    {
      CounterTextRoundTrip(|foundBirds|, |birds|);
      CounterText(|foundBirds|, |birds|)
    }
  }

  /** Every found bird is a transform of the scene whose name marks it as a bird. */
  lemma FoundBirdsAreSceneBirds(mode: ObserveMode)
    requires mode.Valid()
    ensures forall b :: b in mode.foundBirds ==> b in mode.scene.transforms && IsBirdName(b.name)
  {
    BirdsOfExactly(mode.scene.transforms);
  }
}

/**
 * The list of services the accessory exposes (src/DacpAccessory.js:39-65): the
 * accessory information, the speaker (unless the configuration switches volume
 * control off), the player controls and the now-playing service, in that order.
 */
module Services {
  import opened Wrappers

  /**
   * A configured feature value: a boolean, or any other JavaScript value
   * (a number, a string, null, an object), which never equals `false` strictly.
   */
  datatype FeatureValue = Bool(b: bool) | Other

  type Features = map<string, FeatureValue>

  datatype ServiceKind = AccessoryInformation | Speaker | PlayerControls | NowPlaying

  /** `config.features || {}`: a missing (or falsy) feature table reads as empty. */
  function EffectiveFeatures(config: Option<Features>): Features {
    match config
    case None => map[]
    case Some(f) => f
  }

  /** `features['volume-control'] === false`: only the boolean false switches the speaker off. */
  predicate VolumeControlOff(f: Features) {
    "volume-control" in f && f["volume-control"] == Bool(false)
  }

  /** `getSpeakerService`: no service when volume control is off. */
  function SpeakerService(f: Features): (r: Option<ServiceKind>)
    ensures r.None? <==> VolumeControlOff(f)
  {
    if VolumeControlOff(f) then None else Some(Speaker)
  }

  /** `.filter(m => m != null)`: the present entries, in order. */
  function Present<T(!new)>(s: seq<Option<T>>): (r: seq<T>)
    ensures |r| <= |s|
    ensures forall x :: x in r <==> Some(x) in s
    ensures (forall k :: 0 <= k < |s| ==> s[k].Some?) ==> |r| == |s|
    decreases |s|
  {
    if s == [] then []
    else
      var rest := Present(s[1..]);
      assert forall x :: Some(x) in s <==> s[0] == Some(x) || Some(x) in s[1..];
      match s[0]
      case None => rest
      case Some(x) => [x] + rest
  }

  /**
   * The filter works entry by entry: an absent entry contributes nothing, a
   * present one contributes its value, and the results of consecutive parts
   * are concatenated, so order and repetitions are kept.
   */
  lemma {:induction false} PresentAppend<T(!new)>(a: seq<Option<T>>, b: seq<Option<T>>)
    ensures Present(a + b) == Present(a) + Present(b)
    decreases |a|
  {
    if a != [] {
      assert (a + b)[0] == a[0] && (a + b)[1..] == a[1..] + b;
      PresentAppend(a[1..], b);
    } else {
      assert a + b == b;
    }
  }

  lemma PresentEntry<T(!new)>(x: T)
    ensures Present<T>([None]) == []
    ensures Present([Some(x)]) == [x]
  {
  }

  /** `createServices`: the candidate list with the missing speaker dropped. */
  function CreateServices(f: Features): (r: seq<ServiceKind>)
    ensures r == if VolumeControlOff(f) then [AccessoryInformation, PlayerControls, NowPlaying]
                 else [AccessoryInformation, Speaker, PlayerControls, NowPlaying]
  {
    var candidates := [Some(AccessoryInformation), SpeakerService(f), Some(PlayerControls), Some(NowPlaying)];
    assert Present(candidates[4..]) == [];
    assert Present(candidates[3..]) == [NowPlaying];
    assert Present(candidates[2..]) == [PlayerControls, NowPlaying];
    assert Present(candidates[1..]) == if VolumeControlOff(f) then [PlayerControls, NowPlaying]
                                       else [Speaker, PlayerControls, NowPlaying];
    Present(candidates)
  }

  /** The speaker is listed exactly when volume control is not switched off. */
  lemma SpeakerListedUnlessVolumeOff(f: Features)
    ensures Speaker in CreateServices(f) <==> !VolumeControlOff(f)
    ensures CreateServices(f)[0] == AccessoryInformation
    ensures |CreateServices(f)| == if VolumeControlOff(f) then 3 else 4
    ensures "volume-control" !in f ==> Speaker in CreateServices(f)
  {
  }
}

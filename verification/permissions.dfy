/** The permission gate in front of every scan. */
module Permissions {

  datatype Permission =
    | BluetoothScan
    | BluetoothConnect
    | AccessFineLocation
    | AccessCoarseLocation

  /** The four permissions asked for, in the order of the request. */
  const Required: seq<Permission> :=
    [BluetoothScan, BluetoothConnect, AccessFineLocation, AccessCoarseLocation]

  /** The same four as a set. */
  const AllPermissions: set<Permission> := set p | p in Required

  /** The self-check: each requested permission is among those held now
      (`granted`). */
  predicate AllGranted(granted: set<Permission>)
  {
    forall p :: p in Required ==> p in granted
  }

  /** The launcher's answer: `permissions[p] == true` for each requested
      permission, where one missing from the answer reads as null, not true. */
  predicate LauncherGranted(answers: map<Permission, bool>)
  {
    forall p :: p in Required ==> p in answers && answers[p]
  }

  /** The permissions an answer grants. */
  function GrantedBy(answers: map<Permission, bool>): (g: set<Permission>)
    ensures forall p :: p in g <==> p in answers && answers[p]
  {
    set p | p in answers && answers[p]
  }

  /** The self-check is the four separate checks, one per permission: one
      missing permission is enough to refuse, and holding all four (and so
      every permission there is) is enough to pass. */
  lemma AllGrantedIffEveryRequired(granted: set<Permission>)
    ensures AllGranted(granted) <==>
      && BluetoothScan in granted
      && BluetoothConnect in granted
      && AccessFineLocation in granted
      && AccessCoarseLocation in granted
    ensures AllGranted(granted) <==> granted == AllPermissions
  {
    if && BluetoothScan in granted && BluetoothConnect in granted
       && AccessFineLocation in granted && AccessCoarseLocation in granted {
      forall p | p in Required
        ensures p in granted
      {
        assert p == Required[0] || p == Required[1] || p == Required[2] || p == Required[3];
      }
      forall p: Permission
        ensures p in AllPermissions
      {
        match p
        case BluetoothScan => assert Required[0] == p;
        case BluetoothConnect => assert Required[1] == p;
        case AccessFineLocation => assert Required[2] == p;
        case AccessCoarseLocation => assert Required[3] == p;
      }
    }
    if AllGranted(granted) {
      assert Required[0] in Required && Required[1] in Required;
      assert Required[2] in Required && Required[3] in Required;
    }
  }

  /** Holding every requested permission passes the self-check. */
  lemma AllPermissionsGranted()
    ensures AllGranted(AllPermissions)
  {
  }

  /** The two gates agree: the launcher admits exactly the answers that
      grant what the self-check asks for. */
  lemma LauncherAgreesWithSelfCheck(answers: map<Permission, bool>)
    ensures LauncherGranted(answers) <==> AllGranted(GrantedBy(answers))
  {
  }

  /** A denial (or an absent answer) of any one permission refuses. */
  lemma OneDenialRefuses(answers: map<Permission, bool>, p: Permission)
    requires p !in answers || !answers[p]
    ensures !LauncherGranted(answers)
  {
  }
}

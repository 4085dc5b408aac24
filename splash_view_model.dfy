/** The splash screen's view model: which permissions the app needs and which of them are denied. */
module Splash {
  import opened Common

  /** `android.Manifest.permission.CAMERA`, the only permission the app requires. */
  const CameraPermission: string := "android.permission.CAMERA"

  /**
   * `permission.split(".").last()`: the part after the last '.', or the whole
   * string when it has no '.'.
   */
  function LastSegment(s: string): (r: string)
    ensures '.' !in r
    ensures |r| <= |s| && r == s[|s| - |r|..]
    ensures |r| < |s| ==> s[|s| - |r| - 1] == '.'
  {
    if |s| == 0 then ""
    else if s[|s| - 1] == '.' then ""
    else LastSegment(s[..|s| - 1]) + [s[|s| - 1]]
  }

  /** The segment after a final '.' is exactly what follows it. */
  lemma {:induction false} LastSegmentAfterDot(prefix: string, segment: string)
    requires '.' !in segment
    ensures LastSegment(prefix + "." + segment) == segment
  {
    var s := prefix + "." + segment;
    if segment == [] {
      assert s[|s| - 1] == '.';
    } else {
      var shorter := segment[..|segment| - 1];
      assert s[..|s| - 1] == prefix + "." + shorter;
      assert s[|s| - 1] == segment[|segment| - 1];
      assert '.' !in shorter by {
        forall k | 0 <= k < |shorter| ensures shorter[k] != '.' {
          assert shorter[k] == segment[k];
        }
      }
      LastSegmentAfterDot(prefix, shorter);
      assert shorter + [segment[|segment| - 1]] == segment;
    }
  }

  /** The camera permission is listed by its short name. */
  lemma CameraPermissionSegment()
    ensures LastSegment(CameraPermission) == "CAMERA"
  {
    assert CameraPermission == "android.permission" + "." + "CAMERA";
    LastSegmentAfterDot("android.permission", "CAMERA");
  }

  /** The line appended for a denied permission. */
  function DeniedLine(permission: string): string
  {
    "\n* " + LastSegment(permission)
  }

  /** The lines appended for the denied permissions among `permissions`, in order. */
  function DeniedLines(permissions: seq<string>, granted: string -> bool): string
  {
    if permissions == [] then ""
    else (if granted(permissions[0]) then "" else DeniedLine(permissions[0]))
         + DeniedLines(permissions[1..], granted)
  }

  lemma {:induction false} DeniedLinesAppend(xs: seq<string>, ys: seq<string>, granted: string -> bool)
    ensures DeniedLines(xs + ys, granted) == DeniedLines(xs, granted) + DeniedLines(ys, granted)
  {
    if xs == [] {
      assert xs + ys == ys;
    } else {
      assert (xs + ys)[1..] == xs[1..] + ys;
      DeniedLinesAppend(xs[1..], ys, granted);
    }
  }

  /** One more permission adds its own line, if denied, at the end. */
  lemma DeniedLinesSnoc(permissions: seq<string>, i: nat, granted: string -> bool)
    requires i < |permissions|
    ensures DeniedLines(permissions[..i + 1], granted)
            == DeniedLines(permissions[..i], granted)
               + (if granted(permissions[i]) then "" else DeniedLine(permissions[i]))
  {
    assert permissions[..i + 1] == permissions[..i] + [permissions[i]];
    DeniedLinesAppend(permissions[..i], [permissions[i]], granted);
    assert [permissions[i]][1..] == [];
  }

  /** No denied line is added exactly when every permission is granted. */
  lemma {:induction false} DeniedLinesEmptyIffAllGranted(permissions: seq<string>, granted: string -> bool)
    ensures DeniedLines(permissions, granted) == "" <==> forall p :: p in permissions ==> granted(p)
  {
    if permissions != [] {
      DeniedLinesEmptyIffAllGranted(permissions[1..], granted);
      assert forall p :: p in permissions <==> p == permissions[0] || p in permissions[1..];
      if !granted(permissions[0]) {
        assert |DeniedLine(permissions[0])| > 0;
      }
    }
  }

  /** `initPermissionState`: every required permission mapped to `null`. */
  method InitPermissionState(permissions: seq<string>) returns (state: map<string, Option<bool>>)
    ensures state.Keys == set p | p in permissions
    ensures forall p :: p in state ==> state[p] == None
  {
    state := map[];
    for i := 0 to |permissions|
      invariant state.Keys == set p | p in permissions[..i]
      invariant forall p :: p in state ==> state[p] == None
    {
      assert permissions[..i + 1] == permissions[..i] + [permissions[i]];
      state := state[permissions[i] := None];
    }
    assert permissions[..|permissions|] == permissions;
  }

  /**
   * The splash view model. `granted` abstracts `checkSelfPermission(context, p) == PERMISSION_GRANTED`
   * at the moment the method runs.
   */
  class SplashViewModel {
    const requiredPermissions: seq<string>
    var permissionState: map<string, Option<bool>>

    constructor ()
      ensures requiredPermissions == [CameraPermission]
      ensures permissionState == map[CameraPermission := None]
    {
      var initial := InitPermissionState([CameraPermission]);
      requiredPermissions := [CameraPermission];
      permissionState := initial;
      new;
      assert initial.Keys == {CameraPermission};
    }

    /** True iff every required permission is granted; stops at the first that is not. */
    method HasAllPermissions(granted: string -> bool) returns (all: bool)
      ensures all <==> forall p :: p in requiredPermissions ==> granted(p)
    {
      for i := 0 to |requiredPermissions|
        invariant forall k :: 0 <= k < i ==> granted(requiredPermissions[k])
      {
        if !granted(requiredPermissions[i]) {
          return false;
        }
      }
      return true;
    }

    /** A newline, then one "\n* NAME" line per denied permission, in declaration order. */
    method GetListOfDeniedPermissions(granted: string -> bool) returns (text: string)
      ensures text == "\n" + DeniedLines(requiredPermissions, granted)
      ensures text == "\n" <==> forall p :: p in requiredPermissions ==> granted(p)
    {
      var permissions := requiredPermissions;
      var lines := "";
      for i := 0 to |permissions|
        invariant lines == DeniedLines(permissions[..i], granted)
      {
        DeniedLinesSnoc(permissions, i, granted);
        if !granted(permissions[i]) {
          lines := lines + ("\n* " + LastSegment(permissions[i]));
        }
      }
      assert permissions[..|permissions|] == permissions;
      DeniedLinesEmptyIffAllGranted(permissions, granted);
      text := "\n" + lines;
      assert text == "\n" ==> lines == "" by {
        if text == "\n" { assert |lines| == 0; }
      }
    }

    /** Replaces the whole permission state with `state`. */
    method SetPermissionState(state: map<string, bool>)
      modifies this
      ensures permissionState.Keys == state.Keys
      ensures forall p :: p in state ==> permissionState[p] == Some(state[p])
    {
      permissionState := map p | p in state :: Some(state[p]);
    }
  }
}

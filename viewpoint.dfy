/**
 * The `viewpoint` parameter of main.js: `cam:x,y,z[,wkid];heading[,tilt]`, tokens
 * separated by `;` in any order. Numbers are kept as the text `parseFloat` or
 * `parseInt` would read.
 */
module Viewpoint {
  import opened JsValues
  import opened Strings

  /** A camera number: the default 0, or `parseFloat(text)`. */
  datatype Number = Zero | ParsedFloat(text: string)

  /** WGS84, or `new SpatialReference(parseInt(text, 10))`. */
  datatype SpatialRef = Wgs84 | Wkid(text: string)

  datatype Camera = Camera(x: Number, y: Number, z: Number, sr: SpatialRef, heading: Number, tilt: Number)

  const CamMarker := "cam:"

  /** `token.indexOf("cam:") !== -1`: the marker may stand anywhere in the token. */
  predicate IsCameraToken(token: string)
  {
    IndexOf(token, CamMarker) != -1
  }

  /** Token `i` is the last one of its kind (`cam` = holding the marker). */
  predicate IsLastOfKind(tokens: seq<string>, cam: bool, i: int)
  {
    0 <= i < |tokens| && IsCameraToken(tokens[i]) == cam &&
    forall j :: i < j < |tokens| ==> IsCameraToken(tokens[j]) != cam
  }

  /** What the classifying loop leaves in `cameraString` (`cam`) or `tiltHeading` (`!cam`). */
  function LastOfKind(tokens: seq<string>, cam: bool): (r: string)
    ensures (forall i :: 0 <= i < |tokens| ==> IsCameraToken(tokens[i]) != cam) ==> r == ""
    ensures forall i :: IsLastOfKind(tokens, cam, i) ==> r == tokens[i]
    decreases |tokens|
  {
    if tokens == [] then ""
    else
      var init := tokens[..|tokens| - 1];
      var last := tokens[|tokens| - 1];
      if IsCameraToken(last) == cam then last
      else
        LastOfKindStep(tokens, cam);
        LastOfKind(init, cam)
  }

  /** Dropping a last token of the other kind keeps who is last. */
  lemma LastOfKindStep(tokens: seq<string>, cam: bool)
    requires tokens != [] && IsCameraToken(tokens[|tokens| - 1]) != cam
    ensures forall i :: IsLastOfKind(tokens, cam, i) ==> IsLastOfKind(tokens[..|tokens| - 1], cam, i)
  {
    var init := tokens[..|tokens| - 1];
    forall i | IsLastOfKind(tokens, cam, i) ensures IsLastOfKind(init, cam, i) {
      assert i < |tokens| - 1;
      forall j | i < j < |init| ensures IsCameraToken(init[j]) != cam {
        assert init[j] == tokens[j];
      }
    }
  }

  /** `s.substr(4, s.length - 4)`. */
  function DropMarker(s: string): string
  {
    if |s| >= 4 then s[4..] else ""
  }

  /**
   * The camera built from the two strings the loop kept: three or more position fields
   * after the first four characters, a wkid exactly when there are four, and heading and
   * tilt from the other token when there is one.
   */
  function CameraFrom(cameraString: string, tiltHeading: string): (r: Option<Camera>)
    ensures cameraString == "" ==> r.None?
    ensures var pos := Split(DropMarker(cameraString), ",");
      && (cameraString != "" && |pos| < 3 ==> r.None?)
      && (cameraString != "" && |pos| >= 3 ==> r.Some?)
      && (r.Some? ==>
            && r.value.x == ParsedFloat(pos[0]) && r.value.y == ParsedFloat(pos[1]) && r.value.z == ParsedFloat(pos[2])
            && r.value.sr == (if |pos| == 4 then Wkid(pos[3]) else Wgs84)
            && Join(pos, ",") == DropMarker(cameraString))
    ensures r.Some? && tiltHeading == "" ==> r.value.heading == Zero && r.value.tilt == Zero
    ensures r.Some? && tiltHeading != "" ==>
              var th := Split(tiltHeading, ",");
              r.value.heading == ParsedFloat(th[0]) &&
              r.value.tilt == (if |th| > 1 then ParsedFloat(th[1]) else Zero)
  {
    if cameraString == "" then None
    else
      var pos := Split(DropMarker(cameraString), ",");
      JoinSplit(DropMarker(cameraString), ",");
      if |pos| < 3 then None
      else
        var sr := if |pos| == 4 then Wkid(pos[3]) else Wgs84;
        var th := if tiltHeading != "" then Split(tiltHeading, ",") else [];
        var heading := if tiltHeading != "" then ParsedFloat(th[0]) else Zero;
        var tilt := if tiltHeading != "" && |th| > 1 then ParsedFloat(th[1]) else Zero;
        Some(Camera(ParsedFloat(pos[0]), ParsedFloat(pos[1]), ParsedFloat(pos[2]), sr, heading, tilt))
  }

  /**
   * `_setCameraViewpoint` on `config.viewpoint`: no camera for an unset value; a set
   * value that is not a string has no `split` and throws.
   */
  function CameraOf(viewpoint: Option<Value>): (r: Result<Option<Camera>>)
    ensures !IsSet(viewpoint) ==> r == Ok(None)
    ensures IsSet(viewpoint) && !viewpoint.value.Str? ==> r == Threw(TypeError)
    ensures IsSet(viewpoint) && viewpoint.value.Str? ==>
              var tokens := Split(viewpoint.value.s, ";");
              r == Ok(CameraFrom(LastOfKind(tokens, true), LastOfKind(tokens, false)))
  {
    if !IsSet(viewpoint) then Ok(None)
    else if !viewpoint.value.Str? then Threw(TypeError)
    else
      var tokens := Split(viewpoint.value.s, ";");
      Ok(CameraFrom(LastOfKind(tokens, true), LastOfKind(tokens, false)))
  }

  /** `_setCameraViewpoint`: the loop classifying the tokens, then the camera. */
  method SetCameraViewpoint(viewpoint: Option<Value>) returns (r: Result<Option<Camera>>)
    ensures r == CameraOf(viewpoint)
  {
    if !IsSet(viewpoint) {
      return Ok(None);
    }
    if !viewpoint.value.Str? {
      return Threw(TypeError);
    }
    var viewpointArray := Split(viewpoint.value.s, ";");
    var cameraString := "";
    var tiltHeading := "";
    for i := 0 to |viewpointArray|
      invariant cameraString == LastOfKind(viewpointArray[..i], true)
      invariant tiltHeading == LastOfKind(viewpointArray[..i], false)
    {
      assert viewpointArray[..i + 1][..i] == viewpointArray[..i];
      if IndexOf(viewpointArray[i], CamMarker) != -1 {
        cameraString := viewpointArray[i];
      } else {
        tiltHeading := viewpointArray[i];
      }
    }
    assert viewpointArray[..|viewpointArray|] == viewpointArray;
    r := Ok(None);
    if cameraString != "" {
      var positionArray := Split(DropMarker(cameraString), ",");
      if |positionArray| >= 3 {
        var sr := Wgs84;
        if |positionArray| == 4 {
          sr := Wkid(positionArray[3]);
        }
        var heading := Zero;
        var tilt := Zero;
        if tiltHeading != "" {
          var tiltHeadingArray := Split(tiltHeading, ",");
          heading := ParsedFloat(tiltHeadingArray[0]);
          if |tiltHeadingArray| > 1 {
            tilt := ParsedFloat(tiltHeadingArray[1]);
          }
        }
        r := Ok(Some(Camera(ParsedFloat(positionArray[0]), ParsedFloat(positionArray[1]), ParsedFloat(positionArray[2]),
                            sr, heading, tilt)));
      }
    }
  }

  /** A pattern whose first character is absent does not occur. */
  lemma NotStarted(s: string, pat: string)
    requires |pat| > 0 && pat[0] !in s
    ensures IndexOf(s, pat) == -1
  {
    forall j | 0 <= j && j + |pat| <= |s| ensures !OccursAt(s, pat, j) {
      assert s[j..j + |pat|][0] == s[j];
    }
  }

  /** Without a token holding `cam:` there is no camera. */
  lemma NoCameraToken(s: string)
    requires forall i :: 0 <= i < |Split(s, ";")| ==> !IsCameraToken(Split(s, ";")[i])
    ensures CameraOf(Some(Str(s))) == Ok(None)
  {
  }

  /** Three pieces joined by one character. */
  lemma Join3(a: string, b: string, c: string, sep: char)
    ensures Join([a, b, c], [sep]) == a + [sep] + b + [sep] + c
  {
    assert [a, b, c][1..] == [b, c];
    Join2(b, c, sep);
    assert Join([a, b, c], [sep]) == a + [sep] + (b + [sep] + c);
  }

  /** Four pieces joined by one character. */
  lemma Join4(a: string, b: string, c: string, d: string, sep: char)
    ensures Join([a, b, c, d], [sep]) == a + [sep] + b + [sep] + c + [sep] + d
  {
    assert [a, b, c, d][1..] == [b, c, d];
    Join3(b, c, d, sep);
  }

  /** Two pieces joined by one character. */
  lemma Join2(a: string, b: string, sep: char)
    ensures Join([a, b], [sep]) == a + [sep] + b
  {
    assert [a, b][1..] == [b];
  }

  /** A token that starts with the marker is a camera token. */
  lemma StartsWithMarker(token: string)
    requires |token| >= 4 && token[..4] == CamMarker
    ensures IsCameraToken(token)
  {
    assert OccursAt(token, CamMarker, 0);
  }

  /** A text free of the separators of the grammar and of `c`. */
  predicate Plain(s: string)
  {
    ',' !in s && ';' !in s && 'c' !in s
  }

  /** The position fields of a camera token `cam:x,y,z`. */
  lemma PositionOf3(x: string, y: string, z: string)
    requires Plain(x) && Plain(y) && Plain(z)
    ensures Split(DropMarker("cam:" + x + "," + y + "," + z), ",") == [x, y, z]
  {
    assert DropMarker("cam:" + x + "," + y + "," + z) == x + "," + y + "," + z;
    Join3(x, y, z, ',');
    SplitJoin([x, y, z], ',');
  }

  /** The position fields of a camera token `cam:x,y,z,w`. */
  lemma PositionOf4(x: string, y: string, z: string, w: string)
    requires Plain(x) && Plain(y) && Plain(z) && Plain(w)
    ensures Split(DropMarker("cam:" + x + "," + y + "," + z + "," + w), ",") == [x, y, z, w]
  {
    assert DropMarker("cam:" + x + "," + y + "," + z + "," + w) == x + "," + y + "," + z + "," + w;
    Join4(x, y, z, w, ',');
    SplitJoin([x, y, z, w], ',');
  }

  /** A camera token followed by a heading/tilt token. */
  lemma TwoTokens(cam: string, th: string)
    requires |cam| >= 4 && cam[..4] == CamMarker && ';' !in cam
    requires ';' !in th && 'c' !in th
    ensures Split(cam + ";" + th, ";") == [cam, th]
    ensures LastOfKind([cam, th], true) == cam && LastOfKind([cam, th], false) == th
  {
    Join2(cam, th, ';');
    SplitJoin([cam, th], ';');
    StartsWithMarker(cam);
    NotStarted(th, CamMarker);
    assert [cam, th][..1] == [cam];
  }

  /** The camera of a viewpoint string, given how it splits into tokens. */
  lemma CameraOfTokens(s: string, tokens: seq<string>)
    requires s != "" && Split(s, ";") == tokens
    ensures CameraOf(Some(Str(s))) == Ok(CameraFrom(LastOfKind(tokens, true), LastOfKind(tokens, false)))
  {
    assert IsSet(Some(Str(s)));
  }

  /** The camera of the tokens `cam:x,y,z` and `h,t`. */
  lemma CameraFromParts(x: string, y: string, z: string, h: string, t: string)
    requires Plain(x) && Plain(y) && Plain(z) && Plain(h) && Plain(t)
    ensures CameraFrom("cam:" + x + "," + y + "," + z, h + "," + t) ==
            Some(Camera(ParsedFloat(x), ParsedFloat(y), ParsedFloat(z), Wgs84, ParsedFloat(h), ParsedFloat(t)))
  {
    PositionOf3(x, y, z);
    Join2(h, t, ',');
    SplitJoin([h, t], ',');
  }

  /** `cam:x,y,z;h,t`: a WGS84 position with heading `h` and tilt `t`. */
  lemma CameraWithHeadingAndTilt(x: string, y: string, z: string, h: string, t: string)
    requires Plain(x) && Plain(y) && Plain(z) && Plain(h) && Plain(t)
    ensures CameraOf(Some(Str("cam:" + x + "," + y + "," + z + ";" + h + "," + t))) ==
            Ok(Some(Camera(ParsedFloat(x), ParsedFloat(y), ParsedFloat(z), Wgs84, ParsedFloat(h), ParsedFloat(t))))
  {
    var cam := "cam:" + x + "," + y + "," + z;
    var th := h + "," + t;
    var s := "cam:" + x + "," + y + "," + z + ";" + h + "," + t;
    assert s == cam + ";" + th;
    TwoTokens(cam, th);
    CameraOfTokens(s, [cam, th]);
    CameraFromParts(x, y, z, h, t);
  }

  /** `cam:x,y,z,w`: four position fields give the wkid `w`; heading and tilt stay 0. */
  lemma CameraWithWkid(x: string, y: string, z: string, w: string)
    requires Plain(x) && Plain(y) && Plain(z) && Plain(w)
    ensures CameraOf(Some(Str("cam:" + x + "," + y + "," + z + "," + w))) ==
            Ok(Some(Camera(ParsedFloat(x), ParsedFloat(y), ParsedFloat(z), Wkid(w), Zero, Zero)))
  {
    var cam := "cam:" + x + "," + y + "," + z + "," + w;
    assert ';' !in cam;
    SplitJoin([cam], ';');
    StartsWithMarker(cam);
    assert LastOfKind([cam], true) == cam;
    assert LastOfKind([cam][..0], false) == "";
    CameraOfTokens(cam, [cam]);
    PositionOf4(x, y, z, w);
  }
}

/** The image upload's file filter: a file passes when both its extension and its media
    type mention one of the picture formats. */
module Upload {
  import opened Js
  import opened Strings

  /** The path without its trailing slashes. */
  function TrimSlashes(s: string): (r: string)
    ensures |r| <= |s| && r == s[..|r|]
    ensures |r| == 0 || r[|r| - 1] != '/'
  {
    if |s| > 0 && s[|s| - 1] == '/' then TrimSlashes(s[..|s| - 1]) else s
  }

  /** What follows the last slash. */
  function LastPart(s: string): (r: string)
    ensures '/' !in r && |r| <= |s| && r == s[|s| - |r|..]
  {
    if |s| == 0 || s[|s| - 1] == '/' then ""
    else
      var r := LastPart(s[..|s| - 1]) + [s[|s| - 1]];
      assert s[..|s| - 1][|s| - 1 - (|r| - 1)..] + [s[|s| - 1]] == s[|s| - |r|..];
      r
  }

  /** The position of the last `.`. */
  function LastDot(s: string): (d: Option<nat>)
    ensures d.None? <==> '.' !in s
    ensures d.Some? ==> d.value < |s| && s[d.value] == '.' && '.' !in s[d.value + 1..]
  {
    if |s| == 0 then None
    else if s[|s| - 1] == '.' then Some(|s| - 1)
    else
      var d := LastDot(s[..|s| - 1]);
      assert s == s[..|s| - 1] + [s[|s| - 1]];
      if d.Some? then
        assert s[d.value + 1..] == s[..|s| - 1][d.value + 1..] + [s[|s| - 1]];
        d
      else d
  }

  /** `path.extname(name)`: from the last `.` of the last part of the path to its end; a
      part with no dot, or whose only dot starts it, has no extension, and neither has "..". */
  function ExtName(name: string): (ext: string)
    ensures ext == "" || ext[0] == '.'
  {
    var base := LastPart(TrimSlashes(name));
    match LastDot(base)
    case None => ""
    case Some(d) =>
      if d == 0 then ""
      else if base[0] == '.' && d == 1 && d == |base| - 1 then ""
      else base[d..]
  }

  lemma {:induction false} LastPartOfName(s: string)
    requires '/' !in s
    ensures LastPart(s) == s
    decreases |s|
  {
    if |s| > 0 {
      assert s[|s| - 1] in s;
      assert s[..|s| - 1] + [s[|s| - 1]] == s;
      LastPartOfName(s[..|s| - 1]);
    }
  }

  lemma {:induction false} LastDotAt(s: string, k: nat)
    requires k < |s| && s[k] == '.' && '.' !in s[k + 1..]
    ensures LastDot(s) == Some(k)
    decreases |s|
  {
    if k < |s| - 1 {
      assert s[|s| - 1] != '.' by { assert s[|s| - 1] == s[k + 1..][|s| - 2 - k]; }
      var init := s[..|s| - 1];
      assert s[k + 1..] == init[k + 1..] + [s[|s| - 1]];
      LastDotAt(init, k);
    }
  }

  /** A plain file name `stem.ext` has the extension `.ext`. */
  lemma ExtNameOfFileName(stem: string, ext: string)
    requires stem != "" && stem[0] != '.' && '/' !in stem && '/' !in ext && '.' !in ext
    ensures ExtName(stem + "." + ext) == "." + ext
  {
    var name := stem + "." + ext;
    assert name == stem + ("." + ext);
    assert '/' !in "." + ext;
    assert name[|name| - 1] != '/' by { assert name[|name| - 1] in name; }
    assert TrimSlashes(name) == name;
    LastPartOfName(name);
    assert name[|stem| + 1..] == ext;
    LastDotAt(name, |stem|);
    assert LastPart(TrimSlashes(name)) == name;
    assert name[0] == stem[0] && name[|stem|..] == "." + ext;
  }

  /** The test `/jpg|jpeg|png/`: one of the three anywhere in the text. */
  predicate MatchesImageType(s: string)
  {
    Contains(s, "jpg") || Contains(s, "jpeg") || Contains(s, "png")
  }

  /** What the filter tells multer: `cb(null, true)` or `cb('Images only!')`. */
  datatype Verdict = Accept | Reject(message: string)

  /** `checkFileType`: the extension is lower-cased before the test, the media type is not. */
  function CheckFileType(originalname: string, mimetype: string): (v: Verdict)
    ensures v == Accept <==> MatchesImageType(ToLower(ExtName(originalname))) && MatchesImageType(mimetype)
    ensures v.Reject? ==> v.message == "Images only!"
  {
    if MatchesImageType(ToLower(ExtName(originalname))) && MatchesImageType(mimetype) then Accept
    else Reject("Images only!")
  }

  /** A text matches only if it holds the first letter of the matched format. */
  lemma {:induction false} ContainsFirstChar(s: string, pat: string)
    requires |pat| > 0
    ensures Contains(s, pat) ==> pat[0] in s
    decreases |s|
  {
    if |s| > 0 && !IsPrefix(pat, s) {
      ContainsFirstChar(s[1..], pat);
      if pat[0] in s[1..] {
        var k :| 0 <= k < |s[1..]| && s[1..][k] == pat[0];
        assert s[k + 1] == pat[0];
      }
    }
  }

  /** Without a `j` and a `p` nothing matches: in particular an upper-case media type such as
      "IMAGE/PNG" is refused, however the file is named. */
  lemma NoImageLetters(originalname: string, mimetype: string)
    requires 'j' !in mimetype && 'p' !in mimetype
    ensures !MatchesImageType(mimetype) && CheckFileType(originalname, mimetype) == Reject("Images only!")
  {
    ContainsFirstChar(mimetype, "jpg");
    ContainsFirstChar(mimetype, "jpeg");
    ContainsFirstChar(mimetype, "png");
  }

  /** The test is not anchored: a format name anywhere in the text matches. */
  lemma MatchAnywhere(x: string, y: string)
    ensures MatchesImageType(x + "png" + y) && MatchesImageType(x + "jpg" + y)
  {
    ContainsAt(x + "png" + y, "png", |x|);
    ContainsAt(x + "jpg" + y, "jpg", |x|);
  }

  /** An upper-case extension passes, since it is lower-cased first: `stem.PNG` with a
      media type naming png is accepted. */
  lemma UpperCaseExtensionAccepted(stem: string, x: string, y: string)
    requires stem != "" && stem[0] != '.' && '/' !in stem
    ensures CheckFileType(stem + "." + "PNG", x + "png" + y) == Accept
  {
    ExtNameOfFileName(stem, "PNG");
    assert "." + "PNG" == ".PNG";
    var lower := ToLower(".PNG");
    assert lower == "." + "png" + "" by {
      assert lower[0] == Lower('.') && lower[1] == Lower('P') && lower[2] == Lower('N') && lower[3] == Lower('G');
    }
    MatchAnywhere(".", "");
    MatchAnywhere(x, y);
  }
}

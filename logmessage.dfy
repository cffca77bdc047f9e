/** Log messages: the level a message is tagged with, and the message
    itself, whose `file` is the last "/"-separated component of the source
    path it was created in. */
module LogMessages {

  /** The levels a message may be tagged with. */
  datatype LogLevel = None | Debug | Info | Warning | Error

  /** A log message; `functionName` is the function it was created in. */
  datatype LogMessage = LogMessage(file: string, functionName: string, text: string, level: LogLevel)

  /** `path.components(separatedBy: "/")`: the pieces between slashes, in
      order; there is always at least one (possibly empty) piece. */
  function Components(path: string): (cs: seq<string>)
    ensures |cs| >= 1
    ensures forall i :: 0 <= i < |cs| ==> '/' !in cs[i]
    decreases |path|
  {
    if path == [] then [""]
    else
      var rest := Components(path[1..]);
      if path[0] == '/' then [""] + rest
      else [[path[0]] + rest[0]] + rest[1..]
  }

  /** The components glued back together with "/". */
  function Join(cs: seq<string>): string
    requires |cs| >= 1
  {
    if |cs| == 1 then cs[0] else cs[0] + "/" + Join(cs[1..])
  }

  /** Splitting loses nothing: joining the components gives the path. */
  lemma {:induction false} JoinComponents(path: string)
    ensures Join(Components(path)) == path
    decreases |path|
  {
    if path != [] {
      var rest := Components(path[1..]);
      JoinComponents(path[1..]);
      if path[0] == '/' {
        assert Components(path)[1..] == rest;
      } else {
        var cs := Components(path);
        if |rest| == 1 {
          assert cs == [[path[0]] + rest[0]];
        } else {
          assert cs[1..] == rest[1..];
          assert Join(rest) == rest[0] + "/" + Join(rest[1..]);
        }
      }
      assert [path[0]] + path[1..] == path;
    }
  }

  /** The file name of a path: its last component (the fall-back to the
      whole path can never be taken, since there is always a component). */
  function FileOf(path: string): (file: string)
    ensures '/' !in file
  {
    var cs := Components(path);
    if |cs| > 0 then cs[|cs| - 1] else path
  }

  /** How the file name of a path relates to that of the path without its
      first character. */
  lemma FileOfStep(path: string)
    requires path != []
    ensures var rest := Components(path[1..]);
      if path[0] != '/' && |rest| == 1 then FileOf(path) == path
      else FileOf(path) == FileOf(path[1..]) && '/' in path
  {
    var rest := Components(path[1..]);
    var cs := Components(path);
    JoinComponents(path[1..]);
    if path[0] == '/' {
      assert cs[|cs| - 1] == rest[|rest| - 1];
      assert path[0] in path;
    } else if |rest| == 1 {
      assert cs == [[path[0]] + rest[0]];
      assert [path[0]] + path[1..] == path;
    } else {
      assert cs[|cs| - 1] == rest[|rest| - 1];
      assert path[1..] == rest[0] + "/" + Join(rest[1..]);
      assert path[1..][|rest[0]|] == '/';
      assert path[1 + |rest[0]|] == '/';
    }
  }

  /** The last component is the part after the last "/": a suffix of the
      path that is either the whole path or preceded by a "/". */
  lemma {:induction false} FileIsSuffixAfterLastSlash(path: string)
    ensures |FileOf(path)| <= |path|
    ensures FileOf(path) == path[|path| - |FileOf(path)|..]
    ensures |FileOf(path)| < |path| ==> path[|path| - |FileOf(path)| - 1] == '/'
    decreases |path|
  {
    if path != [] {
      FileIsSuffixAfterLastSlash(path[1..]);
      FileOfStep(path);
      var f := FileOf(path[1..]);
      if path[0] != '/' && |Components(path[1..])| == 1 {
        assert path[|path| - |FileOf(path)|..] == path[0..] == path;
      } else {
        var k := |path| - |f|;
        assert path[k..] == path[1..][k - 1..];
        if k == 1 {
          assert f == path[1..];
          assert path[0] == '/' by {
            assert '/' !in f;
          }
        } else {
          assert path[k - 1] == path[1..][k - 2];
        }
      }
    }
  }

  /** A path without "/" is its own file name. */
  lemma FileOfPlainName(path: string)
    requires '/' !in path
    ensures FileOf(path) == path
  {
    FileIsSuffixAfterLastSlash(path);
  }

  /** A path ending in "/" has an empty file name. */
  lemma FileOfDirectory(path: string)
    requires |path| > 0 && path[|path| - 1] == '/'
    ensures FileOf(path) == ""
  {
    FileIsSuffixAfterLastSlash(path);
  }

  /** `LogMessage.init`: the file name from the path, the other fields as
      given. */
  function NewLogMessage(path: string, functionName: string, text: string, level: LogLevel): (m: LogMessage)
    ensures m.file == FileOf(path)
    ensures m.functionName == functionName && m.text == text && m.level == level
  {
    LogMessage(FileOf(path), functionName, text, level)
  }
}

/**
  The command-file builder: the script text a task's command lines become, the
  path it is written to, the scratch directory, and the write and removal of
  the file on an abstract filesystem (a map from path to file contents).
 */
module CommandFile {
  import opened Lines

  /** The filesystem as seen by the builder: path to contents. */
  type FileSystem = map<string, string>

  /** The interpreter line every generated script starts with. */
  const Shebang: string := "#!/bin/bash"

  /** The extension added to the base path of a command file. */
  const ScriptExtension: string := ".sh"

  /** The scratch directory used when `TEMP_DIR` is empty or unset. */
  const DefaultTempDirectory: string := "/tmp"

  /** The separator between the lines of a script. */
  const Newline: char := '\n'

  /** The scratch directory chosen at start-up from the value of `TEMP_DIR`. */
  function TempDirectory(env: string): (dir: string)
    ensures dir != ""
    ensures env != "" ==> dir == env
    ensures env == "" ==> dir == DefaultTempDirectory
  {
    if env == "" then DefaultTempDirectory else env
  }

  /** A file name placed in a directory; the base path of a command file. */
  function JoinPath(dir: string, name: string): string
  {
    dir + "/" + name
  }

  /**
    The script's lines: the commands with the shebang put in front unless the
    first command already is the shebang.
   */
  function Normalize(commands: seq<string>): seq<string>
    requires |commands| > 0
  {
    if commands[0] != Shebang then [Shebang] + commands else commands
  }

  /**
    The lines start with the shebang; the caller's commands end the list
    verbatim and in order; at most one line is added, exactly when the first
    command is not already the shebang.
   */
  lemma NormalizeShape(commands: seq<string>)
    requires |commands| > 0
    ensures var lines := Normalize(commands);
      && |lines| > 0 && lines[0] == Shebang
      && |commands| <= |lines| <= |commands| + 1
      && (forall k :: 0 <= k < |commands| ==> lines[|lines| - |commands| + k] == commands[k])
      && (|lines| == |commands| <==> commands[0] == Shebang)
  {
  }

  /** These facts leave exactly one possible list: the one Normalize gives. */
  lemma NormalizeDetermined(commands: seq<string>, lines: seq<string>)
    requires |commands| > 0
    requires |lines| > 0 && lines[0] == Shebang
    requires |commands| <= |lines| <= |commands| + 1
    requires forall k :: 0 <= k < |commands| ==> lines[|lines| - |commands| + k] == commands[k]
    requires |lines| == |commands| <==> commands[0] == Shebang
    ensures lines == Normalize(commands)
  {
    if |lines| != |commands| {
      assert lines == [lines[0]] + commands;
    }
  }

  /** The shebang is never added twice: normalising normalised lines changes nothing. */
  lemma NormalizeIdempotent(commands: seq<string>)
    requires |commands| > 0
    ensures Normalize(Normalize(commands)) == Normalize(commands)
  {
  }

  /** The text of the script: its lines joined by newlines. */
  function ScriptText(commands: seq<string>): string
    requires |commands| > 0
  {
    Join(Normalize(commands), [Newline])
  }

  /**
    The script text starts with the shebang and ends with the last command:
    no newline is added after the last command.
   */
  lemma ScriptTextEnds(commands: seq<string>)
    requires |commands| > 0
    ensures var text, last := ScriptText(commands), commands[|commands| - 1];
      && Shebang <= text
      && |last| <= |text| && text[|text| - |last|..] == last
  {
    var lines := Normalize(commands);
    NormalizeShape(commands);
    JoinEnds(lines, [Newline]);
    assert lines[|lines| - 1] == commands[|commands| - 1];
  }

  /** The first line of every generated script is exactly the shebang. */
  lemma FirstLineIsShebang(commands: seq<string>)
    requires |commands| > 0
    ensures Split(ScriptText(commands), Newline)[0] == Shebang
  {
    NormalizeShape(commands);
    FirstLineOfJoin(Normalize(commands), Newline);
  }

  /**
    When no command holds a newline, the script's lines read back are the
    normalised lines: the shebang, then every command in its original order.
   */
  lemma ScriptLines(commands: seq<string>)
    requires |commands| > 0
    requires forall k :: 0 <= k < |commands| ==> Newline !in commands[k]
    ensures Split(ScriptText(commands), Newline) == Normalize(commands)
  {
    var lines := Normalize(commands);
    NormalizeShape(commands);
    forall k | 0 <= k < |lines|
      ensures Newline !in lines[k]
    {
      if k < |lines| - |commands| {
        assert lines[k] == Shebang;
      } else {
        assert lines[k] == commands[k - (|lines| - |commands|)];
      }
    }
    SplitJoin(lines, Newline);
  }

  /** The path a command file is written to: its base path with `.sh` appended. */
  function ScriptPath(fp: string): (path: string)
    ensures fp <= path && |path| == |fp| + |ScriptExtension|
    ensures path[|fp|..] == ScriptExtension
  {
    fp + ScriptExtension
  }

  /** Distinct base paths give distinct command files. */
  lemma ScriptPathInjective(fp1: string, fp2: string)
    requires ScriptPath(fp1) == ScriptPath(fp2)
    ensures fp1 == fp2
  {
    assert fp1 == ScriptPath(fp1)[..|fp1|];
    assert fp2 == ScriptPath(fp2)[..|fp2|];
  }

  /** Writes `content` at `path`, creating or overwriting that one file. */
  function WriteFile(fs: FileSystem, path: string, content: string): (fs': FileSystem)
    ensures fs'.Keys == fs.Keys + {path}
    ensures fs'[path] == content
    ensures forall p :: p in fs && p != path ==> fs'[p] == fs[p]
  {
    fs[path := content]
  }

  /** Removes the file at `path` if there is one; every other file is left as it was. */
  function RemoveFile(fs: FileSystem, path: string): (fs': FileSystem)
    ensures fs'.Keys == fs.Keys - {path}
    ensures forall p :: p in fs' ==> fs'[p] == fs[p]
  {
    fs - {path}
  }

  /**
    Writes the script for `commands` at `fp + ".sh"`, creating or overwriting
    that one file; every other file is left as it was.
   */
  function CreateCommandFile(fs: FileSystem, fp: string, commands: seq<string>): (fs': FileSystem)
    requires |commands| > 0
    ensures fs'.Keys == fs.Keys + {ScriptPath(fp)}
    ensures fs'[ScriptPath(fp)] == ScriptText(commands)
    ensures forall p :: p in fs && p != ScriptPath(fp) ==> fs'[p] == fs[p]
  {
    WriteFile(fs, ScriptPath(fp), ScriptText(commands))
  }

  /**
    Removes the file `fp + ".sh"` if it exists; a missing file leaves the
    filesystem unchanged. Every other file is left as it was.
   */
  function Cleanup(fs: FileSystem, fp: string): (fs': FileSystem)
    ensures fs'.Keys == fs.Keys - {ScriptPath(fp)}
    ensures forall p :: p in fs' ==> fs'[p] == fs[p]
  {
    RemoveFile(fs, ScriptPath(fp))
  }

  /** Removing a command file twice is the same as removing it once. */
  lemma CleanupIdempotent(fs: FileSystem, fp: string)
    ensures Cleanup(Cleanup(fs, fp), fp) == Cleanup(fs, fp)
  {
  }

  /** Removing a file that was just written to a fresh path restores the filesystem. */
  lemma RemoveUndoesWrite(fs: FileSystem, path: string, content: string)
    requires path !in fs
    ensures RemoveFile(WriteFile(fs, path, content), path) == fs
  {
    assert RemoveFile(WriteFile(fs, path, content), path).Keys == fs.Keys;
  }

  /** Removing another path keeps a file just written. */
  lemma RemoveKeepsOtherWrite(fs: FileSystem, path: string, content: string, other: string)
    requires path != other
    ensures path in RemoveFile(WriteFile(fs, path, content), other)
    ensures RemoveFile(WriteFile(fs, path, content), other)[path] == content
  {
  }

  /**
    Cleanup with the same base path undoes the write: the filesystem is back to
    what it was before the command file was created.
   */
  lemma CleanupUndoesCreate(fs: FileSystem, fp: string, commands: seq<string>)
    requires |commands| > 0
    requires ScriptPath(fp) !in fs
    ensures Cleanup(CreateCommandFile(fs, fp, commands), fp) == fs
  {
    RemoveUndoesWrite(fs, ScriptPath(fp), ScriptText(commands));
  }

  /** Cleanup with another base path leaves the command file in place, unchanged. */
  lemma CleanupKeepsOtherScript(fs: FileSystem, fp: string, other: string, commands: seq<string>)
    requires |commands| > 0
    requires other != fp
    ensures ScriptPath(fp) in Cleanup(CreateCommandFile(fs, fp, commands), other)
    ensures Cleanup(CreateCommandFile(fs, fp, commands), other)[ScriptPath(fp)] == ScriptText(commands)
  {
    var path := ScriptPath(fp);
    assert path != ScriptPath(other) by {
      if path == ScriptPath(other) {
        ScriptPathInjective(fp, other);
      }
    }
    RemoveKeepsOtherWrite(fs, path, ScriptText(commands), ScriptPath(other));
  }
}

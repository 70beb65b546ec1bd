/** Export orchestration: generate the project into a fresh temporary directory, run the build
    tool on it, then decide success, the error message and whether the directory is kept.
    The build itself, the file system and the clock-free random names are inputs. */
module Exporter {
  import opened Strings
  import opened Platform
  import opened Styles
  import opened ControlTypes
  import opened Templates

  /** `ExportResult`; a string property that was never assigned (null) is `None`. */
  datatype ExportResult = ExportResult(
    success: bool,
    dllPath: Option<string>,
    controlName: Option<string>,
    buildOutput: Option<string>,
    buildErrors: Option<string>,
    errorMessage: Option<string>,
    exitCode: int)

  /** A freshly constructed result. */
  const NewResult := ExportResult(false, None, None, None, None, None, 0)

  /** What starting the build tool led to: its exit code, both output streams read to the end
      and whether the expected DLL exists afterwards; or the exception `Process.Start` threw. */
  datatype BuildRun =
    | Launched(exitCode: int, stdout: string, stderr: string, dllBuilt: bool)
    | LaunchFailed(fault: Fault)

  /** Everything outside the exporter that an export depends on. */
  datatype Environment = Environment(
    tempRoot: string,             // Path.GetTempPath()
    templates: map<string, string>, // the template directory
    fmt: Formatter,
    dirGuid: Guid,                // names the temporary directory
    projectGuid: Guid,            // becomes the project GUID
    build: BuildRun,
    copyFault: Option<Fault>)     // what creating the output directory or File.Copy threw, if anything

  const MissingDllPrefix := "编译成功但未找到输出 DLL: "
  const BuildFailedPrefix := "编译失败: \n"
  const KeptPrefix := "\n[调试] 模板代码暂存于: "
  const ErrorMarker := "error "
  const ExcerptLength := 500

  /** The temporary directory's name: a fixed prefix and the first 8 hex digits of a GUID. */
  function TempDirName(g: Guid): (r: string)
    ensures |r| == 24 && StartsWith(r, "LvControlExport_")
    ensures forall i :: 16 <= i < 24 ==> IsLowerHex(r[i])
  {
    "LvControlExport_" + FormatD(g)[..8]
  }

  function ProjectPath(tempDir: string, controlName: string): string {
    Combine(tempDir, ProjectName(controlName))
  }

  /** Where the build leaves the DLL: `tempDir\bin\Release\<controlName>.dll`. */
  function BuiltDllPath(tempDir: string, controlName: string): string {
    Combine(Combine(Combine(tempDir, "bin"), "Release"), controlName + ".dll")
  }

  /** The build tool's command line: the quoted project path, then the Release, verbosity and
      rebuild switches. */
  function Arguments(projectPath: string): (r: string)
    ensures StartsWith(r, "\"" + projectPath + "\" ")
    ensures r[|projectPath| + 3..] == "/p:Configuration=Release /verbosity:minimal /t:Rebuild"
  {
    "\"" + projectPath + "\" " + "/p:Configuration=Release /verbosity:minimal /t:Rebuild"
  }

  function Min(a: int, b: int): int {
    if a <= b then a else b
  }

  /** The compiler output quoted in a failure message: the error stream when it holds anything
      but white space; otherwise the output stream, cut down to at most 500 characters from the
      first `"error "` only when it is longer than 500 characters and has that marker. */
  function ErrorExcerpt(stdout: string, stderr: string): (r: string)
    ensures !IsBlank(stderr) ==> r == stderr
    ensures IsBlank(stderr) && (|stdout| <= ExcerptLength || IndexOf(stdout, ErrorMarker, 0) < 0) ==> r == stdout
    ensures IsBlank(stderr) && |stdout| > ExcerptLength && IndexOf(stdout, ErrorMarker, 0) >= 0 ==>
      var k := IndexOf(stdout, ErrorMarker, 0);
      && StartsWith(r, ErrorMarker)
      && (forall j: nat :: j < k ==> !OccursAt(stdout, ErrorMarker, j))
      && |r| == Min(ExcerptLength, |stdout| - k)
      && r == stdout[k..k + |r|]
  {
    if !IsBlank(stderr) then stderr
    else if |stdout| > ExcerptLength && IndexOf(stdout, ErrorMarker, 0) >= 0 then
      var k := IndexOf(stdout, ErrorMarker, 0);
      IndexOfIsFirst(stdout, ErrorMarker, 0);
      stdout[k..k + Min(ExcerptLength, |stdout| - k)]
    else stdout
  }

  /** A long output stream is never quoted whole when it has the marker: the excerpt is at
      most 500 characters. */
  lemma ExcerptBounded(stdout: string, stderr: string)
    requires IsBlank(stderr) && IndexOf(stdout, ErrorMarker, 0) >= 0
    ensures |ErrorExcerpt(stdout, stderr)| <= ExcerptLength
  {
  }

  /** The build tools probed, in order. */
  const Candidates: seq<string> := [
    @"C:\Program Files\Microsoft Visual Studio\18\Community\MSBuild\Current\Bin\MSBuild.exe",
    @"C:\Program Files\Microsoft Visual Studio\2022\Community\MSBuild\Current\Bin\MSBuild.exe",
    @"C:\Program Files\Microsoft Visual Studio\2022\Professional\MSBuild\Current\Bin\MSBuild.exe",
    @"C:\Program Files (x86)\Microsoft Visual Studio\2022\BuildTools\MSBuild\Current\Bin\MSBuild.exe",
    @"C:\Program Files (x86)\Microsoft Visual Studio\2019\Community\MSBuild\Current\Bin\MSBuild.exe",
    @"C:\Program Files (x86)\Microsoft Visual Studio\2019\BuildTools\MSBuild\Current\Bin\MSBuild.exe"]

  const Fallback := "MSBuild.exe"

  /** `FindMsBuild`: the first candidate that exists (`existing` is the set of files present),
      else the bare tool name left to the search path. */
  method FindMsBuild(existing: set<string>) returns (path: string)
    ensures path == Fallback <==> forall i :: 0 <= i < |Candidates| ==> Candidates[i] !in existing
    ensures path != Fallback ==>
      exists i :: 0 <= i < |Candidates| && path == Candidates[i] && path in existing
                  && forall j :: 0 <= j < i ==> Candidates[j] !in existing
  {
    for i := 0 to |Candidates|
      invariant forall j :: 0 <= j < i ==> Candidates[j] !in existing
    {
      if Candidates[i] in existing {
        assert Candidates[i] != Fallback by { assert |Candidates[i]| != |Fallback|; }
        return Candidates[i];
      }
    }
    return Fallback;
  }

  class DllExporter {
    const templateEngine: TemplateEngine
    const msBuildPath: string

    /** The tool is probed once, when the exporter is made. */
    constructor (templateEngine: TemplateEngine, existing: set<string>)
      ensures this.templateEngine == templateEngine
      ensures msBuildPath == Fallback <==> forall i :: 0 <= i < |Candidates| ==> Candidates[i] !in existing
      ensures msBuildPath != Fallback ==>
        exists i :: 0 <= i < |Candidates| && msBuildPath == Candidates[i] && msBuildPath in existing
                    && forall j :: 0 <= j < i ==> Candidates[j] !in existing
    {
      this.templateEngine := templateEngine;
      var path := FindMsBuild(existing);
      msBuildPath := path;
    }

    /** `Export`. Returns the result, the command line the build tool was started with (if it
        was), and the files left in the temporary directory (`None` once it is deleted). */
    method Export(style: ControlStyle, outputDllPath: string, controlName: string, t: ControlType, env: Environment)
      returns (result: ExportResult, command: Option<(string, string)>, leftover: Option<map<string, string>>)
      ensures result.success <==> (XamlTemplateName(t) in env.templates && Succeeds(env))
      ensures result.success ==> result.dllPath == Some(outputDllPath) && result.controlName == Some(controlName)
      ensures result.success <==> leftover == None
      ensures !result.success ==> result.dllPath == None && result.controlName == None && result.errorMessage.Some?
      ensures command.Some? <==> XamlTemplateName(t) in env.templates
      ensures command.Some? ==>
        command.value == (msBuildPath, Arguments(ProjectPath(Combine(env.tempRoot, TempDirName(env.dirGuid)), controlName)))
      ensures XamlTemplateName(t) !in env.templates ==>
        && result == NewResult.(errorMessage := Some(Message(FileNotFound(Combine(templateEngine.templateDir, XamlTemplateName(t))))))
        && leftover == Some(map[])
      ensures XamlTemplateName(t) in env.templates ==>
        && result == BuildOutcome(env, Combine(env.tempRoot, TempDirName(env.dirGuid)), controlName, outputDllPath)
        && (leftover.Some? ==> leftover.value == ProjectFiles(env.templates, style.Snapshot(), controlName, t, env.fmt, env.projectGuid))
    {
      result := NewResult;
      command := None;
      ghost var snap := style.Snapshot();
      // 1. the temporary directory, created by GenerateProject
      var tempDir := Combine(env.tempRoot, TempDirName(env.dirGuid));
      var temp := new Folder(tempDir);
      var fault := templateEngine.GenerateProject(style, temp, controlName, t, env.templates, env.fmt, env.projectGuid);
      if fault.Some? {
        result := result.(errorMessage := Some(Message(fault.value)));
        return result, command, Some(temp.files);
      }
      assert temp.files == ProjectFiles(env.templates, snap, controlName, t, env.fmt, env.projectGuid);
      // 2. to 4. the build, the copy and the clean-up
      command := Some((msBuildPath, Arguments(ProjectPath(tempDir, controlName))));
      result := RunBuild(env, tempDir, controlName, outputDllPath);
      BuildOutcomeShape(env, tempDir, controlName, outputDllPath);
      leftover := if result.success then None else Some(temp.files);
    }
  }

  /** The export succeeds when the build tool starts, exits with 0, leaves the DLL and the
      copy to the output path goes through. */
  predicate Succeeds(env: Environment) {
    env.build.Launched? && env.build.exitCode == 0 && env.build.dllBuilt && env.copyFault.None?
  }

  /** The result of an export whose project was generated into `tempDir`. */
  function BuildOutcome(env: Environment, tempDir: string, controlName: string, outputDllPath: string): ExportResult {
    match env.build
    case LaunchFailed(f) => NewResult.(errorMessage := Some(Message(f)))
    case Launched(code, stdout, stderr, dllBuilt) =>
      var built := NewResult.(buildOutput := Some(stdout), buildErrors := Some(stderr), exitCode := code);
      if code != 0 then built.(errorMessage := Some(BuildFailedPrefix + ErrorExcerpt(stdout, stderr) + KeptPrefix + tempDir))
      else if !dllBuilt then built.(errorMessage := Some(MissingDllPrefix + BuiltDllPath(tempDir, controlName) + KeptPrefix + tempDir))
      else if env.copyFault.Some? then built.(errorMessage := Some(Message(env.copyFault.value)))
      else built.(success := true, dllPath := Some(outputDllPath), controlName := Some(controlName))
  }

  /** Success, and only success, leaves no error message and names the DLL. */
  lemma BuildOutcomeShape(env: Environment, tempDir: string, controlName: string, outputDllPath: string)
    ensures var r := BuildOutcome(env, tempDir, controlName, outputDllPath);
      && (r.success <==> Succeeds(env))
      && (r.success <==> r.errorMessage.None?)
      && (r.success ==> r.dllPath == Some(outputDllPath) && r.controlName == Some(controlName))
      && (!r.success ==> r.dllPath.None? && r.controlName.None?)
  {
    match env.build {
      case LaunchFailed(_) =>
      case Launched(code, _, _, dllBuilt) =>
        if code == 0 && dllBuilt && env.copyFault.None? {
          assert BuildOutcome(env, tempDir, controlName, outputDllPath).success;
        }
    }
  }

  predicate EndsWith(s: string, suffix: string) {
    |suffix| <= |s| && s[|s| - |suffix|..] == suffix
  }

  lemma EndsWithAppended(prefix: string, kept: string, dir: string)
    ensures EndsWith(prefix + kept + dir, kept + dir)
  {
    assert prefix + kept + dir == prefix + (kept + dir);
  }

  /** A build that ran but produced no DLL, or failed, ends its message by naming the kept
      temporary directory; an exception's message is passed on without it. */
  lemma FailureNamesKeptSources(env: Environment, tempDir: string, controlName: string, outputDllPath: string)
    requires env.build.Launched? && !(env.build.exitCode == 0 && env.build.dllBuilt)
    ensures EndsWith(BuildOutcome(env, tempDir, controlName, outputDllPath).errorMessage.value, KeptPrefix + tempDir)
  {
    var b := env.build;
    if b.exitCode != 0 {
      EndsWithAppended(BuildFailedPrefix + ErrorExcerpt(b.stdout, b.stderr), KeptPrefix, tempDir);
    } else {
      EndsWithAppended(MissingDllPrefix + BuiltDllPath(tempDir, controlName), KeptPrefix, tempDir);
    }
  }

  /** Steps 2 to 4 of `Export`: read the build's streams and exit code, copy the DLL on
      success, otherwise compose the failure message and say where the sources were kept. */
  method RunBuild(env: Environment, tempDir: string, controlName: string, outputDllPath: string)
    returns (result: ExportResult)
    ensures result == BuildOutcome(env, tempDir, controlName, outputDllPath)
  {
    result := NewResult;
    if env.build.LaunchFailed? {
      return result.(errorMessage := Some(Message(env.build.fault)));
    }
    result := result.(buildOutput := Some(env.build.stdout), buildErrors := Some(env.build.stderr));
    result := result.(exitCode := env.build.exitCode);
    if result.exitCode == 0 {
      var builtDll := BuiltDllPath(tempDir, controlName);
      if env.build.dllBuilt {
        if env.copyFault.Some? {
          return result.(errorMessage := Some(Message(env.copyFault.value)));
        }
        result := result.(success := true, dllPath := Some(outputDllPath), controlName := Some(controlName));
      } else {
        result := result.(errorMessage := Some(MissingDllPrefix + builtDll));
      }
    } else {
      var errStr := CompilerErrors(env.build.stdout, env.build.stderr);
      result := result.(errorMessage := Some(BuildFailedPrefix + errStr));
    }
    if !result.success {
      result := result.(errorMessage := Some(result.errorMessage.value + KeptPrefix + tempDir));
    }
  }

  /** The reassignments of `errStr` in the failure branch. */
  method CompilerErrors(stdout: string, stderr: string) returns (errStr: string)
    ensures errStr == ErrorExcerpt(stdout, stderr)
  {
    errStr := stderr;
    if IsBlank(errStr) {
      errStr := stdout;
      if |errStr| > ExcerptLength {
        var errIdx := IndexOf(errStr, ErrorMarker, 0);
        if errIdx >= 0 {
          errStr := errStr[errIdx..errIdx + Min(ExcerptLength, |errStr| - errIdx)];
        }
      }
    }
  }
}

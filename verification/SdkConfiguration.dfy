// The closed SDK configuration: what configure_sdk writes (configure_build.py) and how
// _configuration_state recognises it (sdk_iteration.py).

module SdkConfiguration {
  import opened Wrappers
  import opened Strings
  import opened LocalConf

  const MAX_BUILD_CONFIG: nat := 256 * 1024
  const MAX_SDK_CONFIGURATION: nat := 64 * 1024
  // In pieces, because a proof about a long literal looks at each of its characters.
  const MANAGED: string := "# Managed by yocto-qemu-edu-lab; " + "edit the selected lab " + "manifest instead."

  /** The part of the lab manifest and of the paths that the rendering reads. */
  datatype Lab = Lab(distro: string, machine: string, configurationRoot: string, layers: seq<string>, workspace: string)

  function Lines(lines: seq<string>): string
  {
    if lines == [] then "" else lines[0] + "\n" + Lines(lines[1..])
  }

  function LayerLines(layers: seq<string>): seq<string>
  {
    if layers == [] then [] else ["  " + layers[0] + " \\"] + LayerLines(layers[1..])
  }

  /** bblayers.conf with the closed configuration root as its only BBPATH entry. */
  function RenderBblayers(lab: Lab, layers: seq<string>): string
  {
    Lines([MANAGED, "POKY_BBLAYERS_CONF_VERSION = \"2\"", "BBPATH = \"" + lab.configurationRoot + "\"",
           "BBFILES ?= \"\"", "BBLAYERS = \" \\"] + LayerLines(layers) + ["\""])
  }

  function RenderSdkLocalConf(lab: Lab): Checked<string>
  {
    RenderLocalConf(SDK_TEXT, lab.distro, lab.machine)
  }

  const SDK_TEXT: string := "CONF_VERSION = \"2\"\n"

  /** A text without a mark is accepted. */
  lemma UnmarkedIsAccepted(text: string)
    requires Absent(text, BEGIN_MARK) && Absent(text, END_MARK)
    ensures Accepted(text)
  {
    MarksAreMarks();
    hide Count, Absent;
    CountAbsent(text, BEGIN_MARK);
    CountAbsent(text, END_MARK);
  }

  lemma CountAbsent(s: string, p: string)
    requires p != "" && Absent(s, p)
    ensures Count(s, p) == 0
  {
  }

  /** The local configuration of the SDK build assigns the lab's distro and machine. */
  lemma SdkLocalConfAssigns(lab: Lab)
    requires IsToken(lab.distro) && IsToken(lab.machine)
    ensures RenderSdkLocalConf(lab).Ok?
    ensures
      var text := RenderSdkLocalConf(lab).value;
      Assigned(text, "DISTRO = \"") == Some(lab.distro) && Assigned(text, "MACHINE = \"") == Some(lab.machine)
  {
    MarksAreMarks();
    assert Free(SDK_TEXT, '#');
    FreeIsAbsent(SDK_TEXT, BEGIN_MARK);
    FreeIsAbsent(SDK_TEXT, END_MARK);
    UnmarkedIsAccepted(SDK_TEXT);
    RenderingAssigns(SDK_TEXT, lab.distro, lab.machine);
    hide RenderLocalConf, Accepted, Assigned;
  }

  /** The layer list, with the workspace spliced in before the closing quote. */
  function RenderSdkBblayers(lab: Lab, workspace: Option<string>): Checked<string>
  {
    var text := RenderBblayers(lab, lab.layers);
    match workspace
    case None => Ok(text)
    case Some(path) =>
      if |text| < 2 || text[|text| - 2..] != "\"\n" then Raise(Invalid)
      else Ok(text[..|text| - 2] + "  " + path + " \\\n" + "\"\n")
  }

  lemma {:induction false} LinesConcat(a: seq<string>, b: seq<string>)
    ensures Lines(a + b) == Lines(a) + Lines(b)
    decreases |a|
  {
    if a == [] {
      assert a + b == b;
    } else {
      assert (a + b)[1..] == a[1..] + b;
      LinesConcat(a[1..], b);
    }
  }

  lemma {:induction false} LayerLinesConcat(a: seq<string>, b: seq<string>)
    ensures LayerLines(a + b) == LayerLines(a) + LayerLines(b)
    decreases |a|
  {
    if a == [] {
      assert a + b == b;
    } else {
      assert (a + b)[1..] == a[1..] + b;
      LayerLinesConcat(a[1..], b);
    }
  }

  function Header(lab: Lab): (lines: seq<string>)
    ensures |lines| == 5
  {
    [MANAGED, "POKY_BBLAYERS_CONF_VERSION = \"2\"", "BBPATH = \"" + lab.configurationRoot + "\"",
     "BBFILES ?= \"\"", "BBLAYERS = \" \\"]
  }

  lemma EndsWithQuote(lab: Lab, layers: seq<string>)
    ensures RenderBblayers(lab, layers) == Lines(Header(lab) + LayerLines(layers)) + "\"\n"
  {
    LinesConcat(Header(lab) + LayerLines(layers), ["\""]);
    assert Lines(["\""]) == "\"\n" by { assert ["\""][1..] == []; }
  }

  /** The splice never fails, and is the rendering of the longer layer list. */
  lemma SpliceIsLastLayer(lab: Lab, path: string)
    ensures RenderSdkBblayers(lab, Some(path)) == Ok(RenderBblayers(lab, lab.layers + [path]))
  {
    EndsWithQuote(lab, lab.layers);
    EndsWithQuote(lab, lab.layers + [path]);
    LayerLinesConcat(lab.layers, [path]);
    var line := "  " + path + " \\";
    assert LayerLines([path]) == [line] by { assert [path][1..] == []; }
    assert Lines([line]) == line + "\n" by { assert [line][1..] == []; }
    LinesConcat(Header(lab) + LayerLines(lab.layers), [line]);
    assert Header(lab) + LayerLines(lab.layers) + [line] == Header(lab) + LayerLines(lab.layers + [path]);
    var head := Lines(Header(lab) + LayerLines(lab.layers));
    var text := RenderBblayers(lab, lab.layers);
    assert text[..|text| - 2] == head && text[|text| - 2..] == "\"\n";
    assert head + (line + "\n") + "\"\n" == head + "  " + path + " \\\n" + "\"\n";
  }

  /** Base and workspace configurations are never the same text. */
  lemma BaseIsNotWorkspace(lab: Lab, path: string)
    ensures RenderSdkBblayers(lab, None) != RenderSdkBblayers(lab, Some(path))
  {
    SpliceIsLastLayer(lab, path);
    EndsWithQuote(lab, lab.layers);
    var text := RenderBblayers(lab, lab.layers);
    assert |RenderSdkBblayers(lab, Some(path)).value| == |text| + |path| + 5;
  }

  // ---- What the layer list assigns ----

  const BBPATH_IS := "BBPATH = \""
  const BBLAYERS_ARE := "BBLAYERS = \" \\"

  /** The layers listed on the lines after an opening one, up to the closing quote. */
  function ListedLayers(lines: seq<string>): seq<string>
    decreases |lines|
  {
    if lines == [] || lines[0] == "\"" then []
    else [if |lines[0]| >= 4 then lines[0][2..|lines[0]| - 2] else ""] + ListedLayers(lines[1..])
  }

  /** The value of BBLAYERS: what follows its first line. */
  function ReadLayers(lines: seq<string>): seq<string>
    decreases |lines|
  {
    if lines == [] then []
    else if lines[0] == BBLAYERS_ARE then ListedLayers(lines[1..])
    else ReadLayers(lines[1..])
  }

  predicate OneLined(s: string)
  {
    forall i :: 0 <= i < |s| ==> s[i] != '\n'
  }

  lemma {:induction false} LinesSplit(lines: seq<string>)
    requires forall i :: 0 <= i < |lines| ==> OneLined(lines[i])
    ensures SplitLines(Lines(lines)) == lines + [""]
    decreases |lines|
  {
    if lines != [] {
      LinesSplit(lines[1..]);
      SplitAtBreak(lines[0], Lines(lines[1..]));
      OneLine(lines[0]);
    }
  }

  lemma {:induction false} LayerLinesRead(layers: seq<string>, rest: seq<string>)
    ensures ListedLayers(LayerLines(layers) + ["\""] + rest) == layers
    ensures (forall i :: 0 <= i < |layers| ==> OneLined(layers[i])) ==>
              forall i :: 0 <= i < |LayerLines(layers)| ==> OneLined(LayerLines(layers)[i])
    decreases |layers|
  {
    if layers == [] {
    } else {
      var line := "  " + layers[0] + " \\";
      var all := LayerLines(layers) + ["\""] + rest;
      assert all[0] == line && all[1..] == LayerLines(layers[1..]) + ["\""] + rest;
      assert line[2..|line| - 2] == layers[0];
      assert line[0] == ' ';
      LayerLinesRead(layers[1..], rest);
    }
  }

  lemma LayerLinesStart(layers: seq<string>, i: nat)
    requires i < |LayerLines(layers)|
    ensures LayerLines(layers)[i] != "" && LayerLines(layers)[i][0] == ' '
    decreases |layers|
  {
    if i > 0 {
      LayerLinesStart(layers[1..], i - 1);
    } else {
      assert LayerLines(layers)[0] == "  " + layers[0] + " \\";
    }
  }

  lemma HeaderIsOneLined(lab: Lab, i: nat)
    requires OneLined(lab.configurationRoot) && i < 5
    ensures OneLined(Header(lab)[i])
  {
    if i == 0 {
      ManagedIsOneLined();
    } else if i == 1 {
      assert OneLined("POKY_BBLAYERS_CONF_VERSION = \"2\"");
    } else if i == 2 {
      assert OneLined("BBPATH = \"");
    } else if i == 3 {
      assert OneLined("BBFILES ?= \"\"");
    } else {
      assert OneLined("BBLAYERS = \" \\");
    }
  }

  lemma ManagedIsOneLined()
    ensures OneLined(MANAGED)
  {
    FreeConcat3("# Managed by yocto-qemu-edu-lab; ", "edit the selected lab ", "manifest instead.", '\n');
  }

  lemma RenderIsLines(lab: Lab, layers: seq<string>)
    ensures RenderBblayers(lab, layers) == Lines(Header(lab) + LayerLines(layers) + ["\""])
  {
  }

  lemma AllOneLined(lab: Lab, layers: seq<string>, i: nat)
    requires OneLined(lab.configurationRoot) && forall i :: 0 <= i < |layers| ==> OneLined(layers[i])
    requires i < 5 + |LayerLines(layers)| + 1
    ensures OneLined((Header(lab) + LayerLines(layers) + ["\""])[i])
  {
    hide Header;
    if i < 5 {
      HeaderIsOneLined(lab, i);
    } else if i < 5 + |LayerLines(layers)| {
      LayerLinesRead(layers, []);
    }
  }

  /** The lines of the layer list. */
  lemma BblayersSplit(lab: Lab, layers: seq<string>)
    requires OneLined(lab.configurationRoot) && forall i :: 0 <= i < |layers| ==> OneLined(layers[i])
    ensures SplitLines(RenderBblayers(lab, layers)) == Header(lab) + LayerLines(layers) + ["\""] + [""]
  {
    hide OneLined, Header, RenderBblayers;
    RenderIsLines(lab, layers);
    var all := Header(lab) + LayerLines(layers) + ["\""];
    forall i | 0 <= i < |all| ensures OneLined(all[i]) {
      AllOneLined(lab, layers, i);
    }
    LinesSplit(all);
  }

  /** What follows the line of BBPATH gives no other value for it. */
  lemma NothingGivesPathAgain(lab: Lab, layers: seq<string>, k: nat)
    requires 2 < k < 5 + |LayerLines(layers)| + 2
    ensures !Gives((Header(lab) + LayerLines(layers) + ["\""] + [""])[k], BBPATH_IS)
  {
    var line := (Header(lab) + LayerLines(layers) + ["\""] + [""])[k];
    if k < 5 {
      NotGiven(line, BBPATH_IS, 2);
    } else {
      if k < 5 + |LayerLines(layers)| {
        LayerLinesStart(layers, k - 5);
      }
      NotGiven(line, BBPATH_IS, 0);
    }
  }

  /** The layer list assigns the closed configuration root to BBPATH and exactly the given
      layers, in order, to BBLAYERS. */
  lemma BblayersAssigns(lab: Lab, layers: seq<string>)
    requires OneLined(lab.configurationRoot) && forall i :: 0 <= i < |layers| ==> OneLined(layers[i])
    ensures
      var lines := SplitLines(RenderBblayers(lab, layers));
      LastGiven(lines, "BBPATH = \"") == Some(lab.configurationRoot) && ReadLayers(lines) == layers
  {
    hide OneLined, Header, RenderBblayers, Gives, LastGiven, ReadLayers;
    BblayersSplit(lab, layers);
    var lines := Header(lab) + LayerLines(layers) + ["\""] + [""];
    forall k | 2 < k < |lines| ensures !Gives(lines[k], BBPATH_IS) {
      NothingGivesPathAgain(lab, layers, k);
    }
    PathIsThird(lab);
    GivenAt([], lines, 2, BBPATH_IS, lab.configurationRoot);
    assert [] + lines == lines;
    LayerLinesRead(layers, [""]);
    HeaderIsSkipped(lab, LayerLines(layers) + ["\""] + [""]);
    assert lines == Header(lab) + (LayerLines(layers) + ["\""] + [""]);
  }

  lemma PathIsThird(lab: Lab)
    ensures Header(lab)[2] == BBPATH_IS + lab.configurationRoot + "\""
  {
  }

  lemma HeaderIsSkipped(lab: Lab, rest: seq<string>)
    ensures ReadLayers(Header(lab) + rest) == ListedLayers(rest)
  {
    OtherLines(lab);
    hide Header;
    var h := Header(lab);
    SkipLine(h[0], h[1..] + rest);
    SkipLine(h[1], h[2..] + rest);
    SkipLine(h[2], h[3..] + rest);
    SkipLine(h[3], h[4..] + rest);
    assert h + rest == [h[0]] + (h[1..] + rest);
    assert h[1..] + rest == [h[1]] + (h[2..] + rest);
    assert h[2..] + rest == [h[2]] + (h[3..] + rest);
    assert h[3..] + rest == [h[3]] + (h[4..] + rest);
    assert (h[4..] + rest)[1..] == rest;
  }

  lemma OtherLines(lab: Lab)
    ensures forall i :: 0 <= i < 4 ==> Header(lab)[i] != BBLAYERS_ARE
    ensures Header(lab)[4] == BBLAYERS_ARE
  {
    var h := Header(lab);
    assert h[0][0] == '#' && h[1][0] == 'P' && h[2][2] == 'P' && h[3][2] == 'F';
    assert BBLAYERS_ARE[0] == 'B' && BBLAYERS_ARE[2] == 'L';
  }

  lemma SkipLine(line: string, rest: seq<string>)
    requires line != BBLAYERS_ARE
    ensures ReadLayers([line] + rest) == ReadLayers(rest)
  {
    assert ([line] + rest)[1..] == rest;
  }

  // ---- The configuration files ----

  datatype Node = Missing | Link | Directory | Undecodable | File(text: string)

  /** The raw files that BitBake would parse. `closedRoot` says that the configuration root
      holds nothing but its conf directory and that nothing but local.conf. */
  datatype Files = Files(
    automatic: bool,
    confDirectory: bool,
    closedRoot: bool,
    rootLocal: Node,
    local: Node,
    layers: Node)

  datatype State = Base | Workspace | Unknown

  predicate IsText(node: Node, limit: nat)
  {
    node.File? && Utf8Size(node.text) <= limit
  }

  /** Classification of raw files; None when an automatically parsed file makes it raise. */
  function Classify(files: Files, lab: Lab): Option<State>
  {
    if files.automatic then None
    else if !IsText(files.local, MAX_BUILD_CONFIG) || !IsText(files.layers, MAX_BUILD_CONFIG) then Some(Unknown)
    else if Ok(files.local.text) != RenderSdkLocalConf(lab) then Some(Unknown)
    else if !files.closedRoot || !IsText(files.rootLocal, MAX_SDK_CONFIGURATION)
            || Ok(files.rootLocal.text) != RenderSdkLocalConf(lab) then Some(Unknown)
    else if Ok(files.layers.text) == RenderSdkBblayers(lab, None) then Some(Base)
    else if Ok(files.layers.text) == RenderSdkBblayers(lab, Some(lab.workspace)) then Some(Workspace)
    else Some(Unknown)
  }

  /** The files hold exactly the closed configuration, with or without the workspace. */
  predicate Written(files: Files, lab: Lab, workspace: Option<string>)
  {
    && !files.automatic && files.closedRoot
    && files.rootLocal.File? && Ok(files.rootLocal.text) == RenderSdkLocalConf(lab)
    && files.local == files.rootLocal
    && files.layers.File? && Ok(files.layers.text) == RenderSdkBblayers(lab, workspace)
  }

  /** The rendered texts fit the readers' byte bounds. */
  predicate Fits(lab: Lab, workspace: Option<string>)
  {
    var local, layers := RenderSdkLocalConf(lab), RenderSdkBblayers(lab, workspace);
    && local.Ok? && Utf8Size(local.value) <= MAX_SDK_CONFIGURATION
    && layers.Ok? && Utf8Size(layers.value) <= MAX_BUILD_CONFIG
  }

  /** Recognition is exact: base, or workspace, is reported for precisely the files that
      configure_sdk leaves behind, provided the readers' bounds admit them; files it left
      behind that exceed the bounds are unknown. */
  lemma RecognitionIsExact(files: Files, lab: Lab)
    ensures Classify(files, lab) == None <==> files.automatic
    ensures Classify(files, lab) == Some(Base) <==> Written(files, lab, None) && Fits(lab, None)
    ensures Classify(files, lab) == Some(Workspace) <==>
              Written(files, lab, Some(lab.workspace)) && Fits(lab, Some(lab.workspace))
    ensures forall w :: (w == None || w == Some(lab.workspace)) && Written(files, lab, w) && !Fits(lab, w) ==>
              Classify(files, lab) == Some(Unknown)
  {
    hide RenderSdkLocalConf, RenderSdkBblayers, RenderBblayers;
    BaseIsNotWorkspace(lab, lab.workspace);
  }

  /** The local configuration can be rendered, within its bound. */
  predicate Renders(lab: Lab)
  {
    var local := RenderSdkLocalConf(lab);
    local.Ok? && Utf8Size(local.value) <= MAX_SDK_CONFIGURATION
  }

  /** Which of the steps on the disk work: preparing the closed directory, and replacing each
      of the three files. */
  datatype Disk = Disk(prepared: bool, root: bool, local: bool, layers: bool)

  predicate Works(disk: Disk)
  {
    disk.prepared && disk.root && disk.local && disk.layers
  }

  class BuildTree {
    const lab: Lab
    const supportedPaths: bool
    var files: Files

    /** Replace one file as a whole, or leave it. */
    method WriteAtomic(text: string, works: bool) returns (node: Option<Node>)
      ensures node == if works then Some(File(text)) else None
    {
      node := if works then Some(File(text)) else None;
    }

    /** What the paths and files must be for the closed configuration to be written. */
    ghost predicate Admits(files: Files)
    {
      && supportedPaths && files.confDirectory && !files.automatic
      && !files.local.Link? && !files.local.Directory? && !files.layers.Link? && !files.layers.Directory?
      && Renders(lab)
    }

    ghost predicate Writable()
      reads this`files
    {
      Admits(files)
    }

    /** Write the closed configuration, the layer list last. A failure, wherever it strikes,
        leaves the layer list as it was. It succeeds exactly on a writable tree and a disk
        on which the closed directory can be prepared and each write works. */
    method ConfigureSdk(workspace: Option<string>, disk: Disk) returns (ok: bool)
      requires workspace == None || workspace == Some(lab.workspace)
      modifies this`files
      ensures ok <==> old(Writable()) && Works(disk)
      ensures ok ==> Written(files, lab, workspace) && Writable()
      ensures !ok ==> files.layers == old(files.layers)
      ensures files.automatic == old(files.automatic) && files.confDirectory == old(files.confDirectory)
    {
      if !supportedPaths || !files.confDirectory || files.automatic {
        return false;
      }
      if files.local.Link? || files.local.Directory? {
        return false;
      }
      if files.layers.Link? || files.layers.Directory? {
        return false;
      }
      var local := RenderSdkLocalConf(lab);
      if local.Raise? {
        return false;
      }
      // The closed directory shape is created or accepted, or refused.
      if !disk.prepared {
        return false;
      }
      files := files.(closedRoot := true);
      var written := WriteAtomic(local.value, disk.root);
      if written.None? {
        return false;
      }
      files := files.(rootLocal := written.value);
      if Utf8Size(local.value) > MAX_SDK_CONFIGURATION {
        return false;
      }
      written := WriteAtomic(local.value, disk.local);
      if written.None? {
        return false;
      }
      files := files.(local := written.value);
      SpliceIsLastLayer(lab, lab.workspace);
      var layers := RenderSdkBblayers(lab, workspace);
      written := WriteAtomic(layers.value, disk.layers);
      if written.None? {
        return false;
      }
      files := files.(layers := written.value);
      return true;
    }
  }
}

/**
 * The requirements parsing of setup.py: each line of requirements.txt is
 * stripped and sorted into the regular, torch or extra-index-URL list; the
 * torch requirements join install_requires only when no extra index is given;
 * a missing file gives a fixed fallback list. `None` stands for the file
 * not being found, `Some(lines)` for its lines as the file iterator yields them.
 */
module Setup {
  import opened Wrappers
  import opened Text

  const IndexUrlOption: string := "--extra-index-url"

  /** The requirements used when requirements.txt does not exist. */
  const FallbackRequirements: seq<string> :=
    ["faster-whisper", "torch>=2.0.0", "sounddevice", "numpy", "pyautogui",
     "scipy", "keyboard", "requests", "language_tool_python"]

  /** Where one line goes. */
  datatype LineKind =
    | Skipped                       // blank, or a `#` / `//` comment
    | IndexUrl(url: string)         // `--extra-index-url <url>`
    | TorchRequirement(req: string) // anything starting with `torch`
    | OtherOption                   // any other `--` line, dropped
    | Regular(req: string)

  /** The body of the loop for one line, as read from the file. */
  function ClassifyLine(raw: string): LineKind {
    ClassifyStripped(Strip(raw))
  }

  /** The tests on the stripped line, in the order the source makes them. */
  function ClassifyStripped(line: string): LineKind {
    if line == [] || StartsWith(line, "#") || StartsWith(line, "//") then Skipped
    else if StartsWith(line, IndexUrlOption) then IndexUrl(Strip(line[|IndexUrlOption|..]))
    else if StartsWith(line, "torch") then TorchRequirement(line)
    else if StartsWith(line, "--") then OtherOption
    else Regular(line)
  }

  /** A requirement kept as regular is a stripped, non-empty, non-comment line that is neither an option nor a torch line; a torch one is a stripped line starting with "torch"; a URL is stripped. */
  lemma ClassifyLineFacts(raw: string)
    ensures ClassifyLine(raw).Regular? ==>
      var r := ClassifyLine(raw).req;
      && r == Strip(raw) && r != [] && IsStripped(r)
      && !StartsWith(r, "#") && !StartsWith(r, "//") && !StartsWith(r, "--") && !StartsWith(r, "torch")
    ensures ClassifyLine(raw).TorchRequirement? ==>
      ClassifyLine(raw).req == Strip(raw) && StartsWith(ClassifyLine(raw).req, "torch")
    ensures ClassifyLine(raw).IndexUrl? ==> IsStripped(ClassifyLine(raw).url)
    ensures ClassifyLine(raw).Skipped? <==> AllSpace(raw) || StartsWith(Strip(raw), "#") || StartsWith(Strip(raw), "//")
  {
    StripFacts(raw);
    StripEmptyIff(raw);
    var line := Strip(raw);
    if StartsWith(line, IndexUrlOption) {
      StripFacts(line[|IndexUrlOption|..]);
    }
  }

  /** The three lists the loop builds. */
  datatype Lists = Lists(requirements: seq<string>, pytorch: seq<string>, urls: seq<string>)

  const NoLists := Lists([], [], [])

  /** One classified line appended to the list it belongs to. */
  function AddKind(l: Lists, k: LineKind): Lists {
    match k
    case IndexUrl(url) => l.(urls := l.urls + [url])
    case TorchRequirement(req) => l.(pytorch := l.pytorch + [req])
    case Regular(req) => l.(requirements := l.requirements + [req])
    case Skipped => l
    case OtherOption => l
  }

  /** The lists after lines of the given kinds have been read, in order. */
  function Collect(kinds: seq<LineKind>): Lists {
    if kinds == [] then NoLists
    else AddKind(Collect(kinds[..|kinds| - 1]), kinds[|kinds| - 1])
  }

  /** The classification of every line. */
  function Kinds(lines: seq<string>): (ks: seq<LineKind>)
    ensures |ks| == |lines|
    ensures forall i | 0 <= i < |lines| :: ks[i] == ClassifyLine(lines[i])
  {
    seq(|lines|, i requires 0 <= i < |lines| => ClassifyLine(lines[i]))
  }

  /** The lists after the loop has read the given lines. */
  function Partition(lines: seq<string>): Lists {
    Collect(Kinds(lines))
  }

  /** install_requires: the fallback for a missing file; otherwise the regular requirements, followed by the torch ones only when no extra index URL was found. */
  function InstallRequires(file: Option<seq<string>>): seq<string> {
    match file
    case None => FallbackRequirements
    case Some(lines) =>
      var l := Partition(lines);
      if l.urls == [] then l.requirements + l.pytorch else l.requirements
  }

  /** The `with open(...)` block, lines 15-27: one pass over the lines, each stripped and appended to its list. */
  method ReadRequirementLines(lines: seq<string>) returns (l: Lists)
    ensures l == Partition(lines)
  {
    ghost var kinds := Kinds(lines);
    var requirements, pytorchRequirements, extraIndexUrls := [], [], [];
    for i := 0 to |lines|
      invariant Collect(kinds[..i]) == Lists(requirements, pytorchRequirements, extraIndexUrls)
    {
      assert kinds[..i + 1][..i] == kinds[..i];
      assert Collect(kinds[..i + 1]) == AddKind(Lists(requirements, pytorchRequirements, extraIndexUrls), ClassifyLine(lines[i]));
      var line := Strip(lines[i]);
      if line != [] && !StartsWith(line, "#") && !StartsWith(line, "//") {
        if StartsWith(line, IndexUrlOption) {
          var url := Strip(line[|IndexUrlOption|..]);
          extraIndexUrls := extraIndexUrls + [url];
        } else if StartsWith(line, "torch") {
          pytorchRequirements := pytorchRequirements + [line];
        } else if !StartsWith(line, "--") {
          requirements := requirements + [line];
        }
      }
    }
    assert kinds[..|lines|] == kinds;
    l := Lists(requirements, pytorchRequirements, extraIndexUrls);
  }

  /** Module-level code of setup.py, lines 14-43: the file's lines or the fallback, then the torch merge. */
  method ParseRequirements(file: Option<seq<string>>)
    returns (requirements: seq<string>, pytorchRequirements: seq<string>, extraIndexUrls: seq<string>)
    ensures requirements == InstallRequires(file)
    ensures file.Some? ==> pytorchRequirements == Partition(file.value).pytorch && extraIndexUrls == Partition(file.value).urls
    ensures file.None? ==> pytorchRequirements == [] && extraIndexUrls == []
  {
    match file {
      case None =>
        requirements, pytorchRequirements, extraIndexUrls := FallbackRequirements, [], [];
      case Some(lines) =>
        var l := ReadRequirementLines(lines);
        requirements, pytorchRequirements, extraIndexUrls := l.requirements, l.pytorch, l.urls;
    }
    if extraIndexUrls == [] {
      requirements := requirements + pytorchRequirements;
    }
  }

  /** The lists of `l` followed by those of `m`, list by list. */
  function Concat(l: Lists, m: Lists): Lists {
    Lists(l.requirements + m.requirements, l.pytorch + m.pytorch, l.urls + m.urls)
  }

  lemma AddKindConcat(l: Lists, m: Lists, k: LineKind)
    ensures AddKind(Concat(l, m), k) == Concat(l, AddKind(m, k))
  {
    match k {
      case IndexUrl(url) => assert l.urls + m.urls + [url] == l.urls + (m.urls + [url]);
      case TorchRequirement(req) => assert l.pytorch + m.pytorch + [req] == l.pytorch + (m.pytorch + [req]);
      case Regular(req) => assert l.requirements + m.requirements + [req] == l.requirements + (m.requirements + [req]);
      case Skipped =>
      case OtherOption =>
    }
  }

  lemma {:induction false} CollectAppend(a: seq<LineKind>, b: seq<LineKind>)
    ensures Collect(a + b) == Concat(Collect(a), Collect(b))
  {
    if b == [] {
      assert a + b == a;
      assert Concat(Collect(a), NoLists) == Collect(a);
    } else {
      var b', last := b[..|b| - 1], b[|b| - 1];
      var ab := a + b;
      assert ab[..|ab| - 1] == a + b' && ab[|ab| - 1] == last;
      CollectAppend(a, b');
      AddKindConcat(Collect(a), Collect(b'), last);
    }
  }

  /** The lists of concatenated files are the concatenated lists: lines are kept in file order and each depends only on itself. */
  lemma PartitionAppend(a: seq<string>, b: seq<string>)
    ensures Partition(a + b) == Concat(Partition(a), Partition(b))
  {
    var ks, ka, kb := Kinds(a + b), Kinds(a), Kinds(b);
    forall i | 0 <= i < |ks| ensures ks[i] == (ka + kb)[i] {
      if i < |a| {
        assert (a + b)[i] == a[i];
      } else {
        assert (a + b)[i] == b[i - |a|];
      }
    }
    assert ks == ka + kb;
    CollectAppend(ka, kb);
  }

  /** A string is in a list exactly when a line of that kind carries it. */
  lemma {:induction false} CollectMembership(kinds: seq<LineKind>, s: string)
    ensures s in Collect(kinds).requirements <==> Regular(s) in kinds
    ensures s in Collect(kinds).pytorch <==> TorchRequirement(s) in kinds
    ensures s in Collect(kinds).urls <==> IndexUrl(s) in kinds
  {
    if kinds != [] {
      var init, last := kinds[..|kinds| - 1], kinds[|kinds| - 1];
      CollectMembership(init, s);
      assert kinds == init + [last];
      var l := Collect(init);
      match last {
        case IndexUrl(url) => assert Collect(kinds).urls == l.urls + [url];
        case TorchRequirement(req) => assert Collect(kinds).pytorch == l.pytorch + [req];
        case Regular(req) => assert Collect(kinds).requirements == l.requirements + [req];
        case Skipped =>
        case OtherOption =>
      }
    }
  }

  /** A requirement is regular exactly when some line classifies as it; likewise for torch requirements and URLs. */
  lemma PartitionMembership(lines: seq<string>, s: string)
    ensures s in Partition(lines).requirements <==> exists i | 0 <= i < |lines| :: ClassifyLine(lines[i]) == Regular(s)
    ensures s in Partition(lines).pytorch <==> exists i | 0 <= i < |lines| :: ClassifyLine(lines[i]) == TorchRequirement(s)
    ensures s in Partition(lines).urls <==> exists i | 0 <= i < |lines| :: ClassifyLine(lines[i]) == IndexUrl(s)
  {
    CollectMembership(Kinds(lines), s);
  }

  /** No regular requirement starts with "torch"; every torch requirement does. */
  lemma PartitionPrefixes(lines: seq<string>)
    ensures forall r | r in Partition(lines).requirements :: !StartsWith(r, "torch")
    ensures forall r | r in Partition(lines).pytorch :: StartsWith(r, "torch")
  {
    forall r | r in Partition(lines).requirements ensures !StartsWith(r, "torch") {
      PartitionMembership(lines, r);
      var i :| 0 <= i < |lines| && ClassifyLine(lines[i]) == Regular(r);
      ClassifyLineFacts(lines[i]);
    }
    forall r | r in Partition(lines).pytorch ensures StartsWith(r, "torch") {
      PartitionMembership(lines, r);
      var i :| 0 <= i < |lines| && ClassifyLine(lines[i]) == TorchRequirement(r);
      ClassifyLineFacts(lines[i]);
    }
  }

  /** With a file present, a torch requirement is installed exactly when no extra index URL was given; regular ones always are. */
  lemma TorchInstalledIff(lines: seq<string>, t: string)
    requires t in Partition(lines).pytorch
    ensures t in InstallRequires(Some(lines)) <==> Partition(lines).urls == []
    ensures forall r | r in Partition(lines).requirements :: r in InstallRequires(Some(lines))
  {
    PartitionPrefixes(lines);
  }

  lemma FirstChar(s: string, p: string)
    requires p != [] && StartsWith(s, p)
    ensures s[0] == p[0]
  {
    assert s[..|p|][0] == s[0];
  }

  /** A string does not start with a prefix whose first character it lacks. */
  lemma FirstCharDiffers(s: string, p: string)
    requires s != [] && p != [] && s[0] != p[0]
    ensures !StartsWith(s, p)
  {
    if StartsWith(s, p) {
      FirstChar(s, p);
    }
  }

  /** Any stripped line starting with "torch", `torchaudio` among them, is a torch requirement. */
  lemma TorchLine(line: string)
    requires IsStripped(line) && StartsWith(line, "torch")
    ensures ClassifyLine(line) == TorchRequirement(line)
  {
    ClassifyStrippedLine(line);
    TorchPrefixedIsTorch(line);
  }

  lemma TorchPrefixedIsTorch(line: string)
    requires StartsWith(line, "torch")
    ensures ClassifyStripped(line) == TorchRequirement(line)
  {
    FirstChar(line, "torch");
    FirstCharDiffers(line, "#");
    FirstCharDiffers(line, "//");
    FirstCharDiffers(line, IndexUrlOption);
  }

  lemma TorchaudioIsTorch()
    ensures ClassifyLine("torchaudio") == TorchRequirement("torchaudio")
  {
    TorchLine("torchaudio");
  }

  lemma NumpyIsRegular()
    ensures ClassifyLine("numpy") == Regular("numpy")
  {
    StripOfStripped("numpy");
    FirstCharDiffers("numpy", "#");
    FirstCharDiffers("numpy", "//");
    FirstCharDiffers("numpy", IndexUrlOption);
    FirstCharDiffers("numpy", "torch");
    FirstCharDiffers("numpy", "--");
  }

  /** An index URL, a regular and a torch line, in that order. */
  lemma CollectUrlRegularTorch(url: string, req: string, torchReq: string)
    ensures Collect([IndexUrl(url), Regular(req), TorchRequirement(torchReq)]) == Lists([req], [torchReq], [url])
  {
    var ks := [IndexUrl(url), Regular(req), TorchRequirement(torchReq)];
    assert ks[..1][..0] == [];
    assert Collect(ks[..1]) == Lists([], [], [url]);
    assert ks[..2][..1] == ks[..1];
    assert Collect(ks[..2]) == Lists([req], [], [url]);
    assert ks[..3] == ks;
  }

  /** A torch line, another option and a regular line, in that order. */
  lemma CollectTorchOptionRegular(torchReq: string, req: string)
    ensures Collect([TorchRequirement(torchReq), OtherOption, Regular(req)]) == Lists([req], [torchReq], [])
  {
    var ks := [TorchRequirement(torchReq), OtherOption, Regular(req)];
    assert ks[..1][..0] == [];
    assert Collect(ks[..1]) == Lists([], [torchReq], []);
    assert ks[..2][..1] == ks[..1];
    assert Collect(ks[..2]) == Lists([], [torchReq], []);
    assert ks[..3] == ks;
  }

  /** `--extra-index-url <url>` contributes the URL without the separating space. */
  lemma IndexUrlLine(url: string)
    requires url != [] && IsStripped(url)
    ensures ClassifyStripped(IndexUrlOption + " " + url) == IndexUrl(url)
  {
    var line := IndexUrlOption + " " + url;
    assert line[0] == '-';
    assert line[..|IndexUrlOption|] == IndexUrlOption;
    FirstCharDiffers(line, "#");
    FirstCharDiffers(line, "//");
    var rest := line[|IndexUrlOption|..];
    assert rest == " " + url && rest[1..] == url;
    StripOfStripped(url);
    assert TrimLeft(rest) == TrimLeft(url) == url;
  }

  /** A line that is already stripped is classified as it stands. */
  lemma ClassifyStrippedLine(line: string)
    requires IsStripped(line)
    ensures ClassifyLine(line) == ClassifyStripped(line)
  {
    StripOfStripped(line);
  }

  /** Any other stripped `--` line is dropped. */
  lemma OptionLine(line: string)
    requires IsStripped(line) && StartsWith(line, "--") && !StartsWith(line, IndexUrlOption)
    ensures ClassifyLine(line) == OtherOption
  {
    ClassifyStrippedLine(line);
    OptionLineDropped(line);
  }

  /** `--extra-index-url <url>` as a line of the file. */
  lemma UrlLine(url: string)
    requires url != [] && IsStripped(url)
    ensures ClassifyLine(IndexUrlOption + " " + url) == IndexUrl(url)
  {
    var u := IndexUrlOption + " " + url;
    assert u[0] == '-' && u[|u| - 1] == url[|url| - 1];
    ClassifyStrippedLine(u);
    IndexUrlLine(url);
  }

  lemma KindsOfThree(a: string, b: string, c: string)
    ensures Kinds([a, b, c]) == [ClassifyLine(a), ClassifyLine(b), ClassifyLine(c)]
  {
    var lines := [a, b, c];
    var ks := Kinds(lines);
    var want := [ClassifyLine(a), ClassifyLine(b), ClassifyLine(c)];
    assert |ks| == |want|;
    forall i | 0 <= i < 3 ensures ks[i] == want[i] {
      assert ks[i] == ClassifyLine(lines[i]);
    }
  }

  /** Any other `--` line is dropped. */
  lemma OptionLineDropped(line: string)
    requires StartsWith(line, "--") && !StartsWith(line, IndexUrlOption)
    ensures ClassifyStripped(line) == OtherOption
  {
    FirstChar(line, "--");
    FirstCharDiffers(line, "#");
    FirstCharDiffers(line, "//");
    FirstCharDiffers(line, "torch");
  }

  /** With an extra index, torch requirements stay out of install_requires even when they come after it in the file. */
  lemma IndexUrlKeepsTorchOut(url: string, req: string, torchReq: string)
    requires url != [] && IsStripped(url)
    requires ClassifyLine(req) == Regular(req)
    requires IsStripped(torchReq) && StartsWith(torchReq, "torch")
    ensures InstallRequires(Some([IndexUrlOption + " " + url, req, torchReq])) == [req]
  {
    UrlLine(url);
    TorchLine(torchReq);
    var lines := [IndexUrlOption + " " + url, req, torchReq];
    KindsOfThree(IndexUrlOption + " " + url, req, torchReq);
    CollectUrlRegularTorch(url, req, torchReq);
    var l := Lists([req], [torchReq], [url]);
    assert Partition(lines) == l;
    assert InstallRequires(Some(lines)) == l.requirements;
  }

  /** Without one, other options are dropped and the torch requirements follow the regular ones, whatever the file order. */
  lemma TorchAppendedWithoutIndexUrl(torchReq: string, option: string, req: string)
    requires IsStripped(torchReq) && StartsWith(torchReq, "torch")
    requires IsStripped(option) && StartsWith(option, "--") && !StartsWith(option, IndexUrlOption)
    requires ClassifyLine(req) == Regular(req)
    ensures InstallRequires(Some([torchReq, option, req])) == [req, torchReq]
  {
    TorchLine(torchReq);
    OptionLine(option);
    var lines := [torchReq, option, req];
    KindsOfThree(torchReq, option, req);
    CollectTorchOptionRegular(torchReq, req);
    var l := Lists([req], [torchReq], []);
    assert Partition(lines) == l;
    assert InstallRequires(Some(lines)) == l.requirements + l.pytorch;
  }
}

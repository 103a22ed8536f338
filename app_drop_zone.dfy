/**
 * What a drop on an application drop zone reports (handleDrop in
 * src/components/AppDropZone.tsx). A drop carries dropped files, a
 * `text/uri-list` entry and a `text/plain` entry; each of the three is read
 * independently and each can report one application, in that order, so one
 * drop reports at most three.
 *
 * `decodeURIComponent` is a parameter: None stands for the URIError it
 * throws, which the handler's try/catch turns into the end of the drop.
 */
module AppDropZone {
  import opened Wrappers
  import opened HubTypes
  import Seqs
  import Strings

  datatype DroppedFile = DroppedFile(name: string, path: string)

  datatype DropData = DropData(files: seq<DroppedFile>, uriList: string, plainText: string)

  /** One call of the drop callback: the application and the zone's target slot. */
  datatype Report = Report(app: ExternalApplication, targetSlotId: Option<string>)

  /** The file-name test of the files branch: a case-sensitive executable extension. */
  predicate IsExecutableName(name: string)
  {
    Strings.EndsWith(name, ".exe") || Strings.EndsWith(name, ".app")
    || Strings.EndsWith(name, ".bat") || Strings.EndsWith(name, ".cmd")
  }

  /** The extensions stripped from names: `/\.(exe|app|bat|cmd)$/i`, and `lnk` as well for links. */
  function Extensions(withLink: bool): seq<string>
  {
    if withLink then [".exe", ".app", ".bat", ".cmd", ".lnk"] else [".exe", ".app", ".bat", ".cmd"]
  }

  /** The name ends with one of the extensions, in any letter case. */
  predicate HasExtension(name: string, exts: seq<string>)
  {
    |name| >= 4 && Strings.Lower(name[|name| - 4..]) in exts
  }

  /** The name with one trailing extension removed, letter case ignored. */
  function Stripped(name: string, exts: seq<string>): (r: string)
    ensures Strings.StartsWith(name, r)
    ensures HasExtension(name, exts) ==> |r| == |name| - 4
    ensures !HasExtension(name, exts) ==> r == name
  {
    if HasExtension(name, exts) then name[..|name| - 4] else name
  }

  /** Appending an extension, in any letter case, and stripping it gives the name back. */
  lemma StripAppended(base: string, ext: string, exts: seq<string>)
    requires |ext| == 4 && Strings.Lower(ext) in exts
    ensures Stripped(base + ext, exts) == base
  {
    var name := base + ext;
    assert name[|name| - 4..] == ext;
    assert name[..|name| - 4] == base;
  }

  /** Only one extension goes: a name with two extensions keeps the first ("setup.exe.exe" becomes "setup.exe"). */
  lemma StripOnlyOnce(base: string, first: string, second: string, exts: seq<string>)
    requires |first| == 4 && |second| == 4 && Strings.Lower(second) in exts
    ensures Stripped(base + first + second, exts) == base + first
  {
    StripAppended(base + first, second, exts);
  }

  /** The last path segment after `/` or `\`, or "Unknown App" when that is empty. */
  function FileName(path: string): (r: string)
    ensures r != []
    ensures Strings.LastSegment(path, {'/', '\\'}) != [] ==> r == Strings.LastSegment(path, {'/', '\\'})
    ensures Strings.LastSegment(path, {'/', '\\'}) == [] ==> r == "Unknown App"
  {
    var last := Strings.LastSegment(path, {'/', '\\'});
    if last == [] then "Unknown App" else last
  }

  /** The segment after the last separator is the file name. */
  lemma FileNameOfPath(dir: string, sep: char, name: string)
    requires sep == '/' || sep == '\\'
    requires name != [] && forall i :: 0 <= i < |name| ==> name[i] != '/' && name[i] != '\\'
    ensures FileName(dir + [sep] + name) == name
  {
    var path := dir + [sep] + name;
    var last := Strings.LastSegment(path, {'/', '\\'});
    assert path[|path| - |name|..] == name;
    assert path[|path| - |name| - 1] == sep;
    assert last == path[|path| - |last|..];
  }

  /** A dropped application record: id from the time, the box icon, the default colour, custom. */
  function DroppedApp(stamp: nat, name: string, path: string): (app: ExternalApplication)
    ensures app.isCustom && app.icon == Some("\U{1F4E6}") && app.color == Some(Default)
    ensures app.name == name && app.executablePath == path
  {
    ExternalApplication("dropped-" + Strings.Decimal(stamp), name, path, None, None, Some("\U{1F4E6}"),
                        Some(Default), true)
  }

  /** The files branch: only the first file counts, and only with an executable name. */
  function FromFiles(files: seq<DroppedFile>, stamp: nat): (r: Option<ExternalApplication>)
    ensures r.Some? <==> files != [] && IsExecutableName(files[0].name)
    ensures r.Some? ==> r.value == DroppedApp(stamp, Stripped(files[0].name, Extensions(false)), files[0].path)
  {
    if files != [] && IsExecutableName(files[0].name) then
      Some(DroppedApp(stamp, Stripped(files[0].name, Extensions(false)), files[0].path))
    else None
  }

  /** A uri-list line that counts: not blank and not a `#` comment. */
  predicate IsEntry(line: string)
  {
    Strings.Trim(line) != [] && !Strings.StartsWith(line, "#")
  }

  /** The first entry among the lines, trimmed. */
  function FirstEntryOf(lines: seq<string>): (r: Option<string>)
    ensures r.Some? <==> exists k :: 0 <= k < |lines| && IsEntry(lines[k])
    ensures r.Some? ==> exists k :: 0 <= k < |lines| && IsEntry(lines[k])
                          && (forall j :: 0 <= j < k ==> !IsEntry(lines[j]))
                          && r.value == Strings.Trim(lines[k])
  {
    match Seqs.Find(lines, IsEntry)
    case None => None
    case Some(line) => Some(Strings.Trim(line))
  }

  /** The first entry of a uri-list (its lines split at newlines), trimmed. */
  function FirstEntry(uriList: string): Option<string>
  {
    FirstEntryOf(Strings.Split(uriList, {'\n'}))
  }

  /** Comment lines before the first entry are skipped. */
  lemma CommentsSkipped(comment: string, entry: string)
    requires Strings.StartsWith(comment, "#") && '\n' !in comment && '\n' !in entry
    requires IsEntry(entry)
    ensures FirstEntry(comment + "\n" + entry) == Some(Strings.Trim(entry))
  {
    var s := comment + "\n" + entry;
    var lines := [comment, entry];
    SplitAtNewline(comment, entry);
    assert FirstEntry(s) == FirstEntryOf(lines);
    assert !IsEntry(comment) by {
      assert comment[..1] == "#";
    }
    assert Seqs.Find(lines, IsEntry) == Some(entry) by {
      assert lines[1..] == [entry];
      assert Seqs.Find([entry], IsEntry) == Some(entry);
    }
  }

  /** Splitting two newline-free lines joined by a newline gives the two lines. */
  lemma {:induction false} SplitAtNewline(a: string, b: string)
    requires '\n' !in a && '\n' !in b
    ensures Strings.Split(a + "\n" + b, {'\n'}) == [a, b]
    decreases |a|
  {
    if a == [] {
      assert a + "\n" + b == ['\n'] + b;
      assert (['\n'] + b)[1..] == b;
      NoSeparator(b);
    } else {
      var s := a + "\n" + b;
      assert s[0] == a[0] && s[1..] == a[1..] + "\n" + b;
      SplitAtNewline(a[1..], b);
      assert [a[0]] + a[1..] == a;
    }
  }

  /** A text without the separator splits into itself. */
  lemma {:induction false} NoSeparator(s: string)
    requires '\n' !in s
    ensures Strings.Split(s, {'\n'}) == [s]
  {
    if s != [] {
      assert s[0] != '\n';
      NoSeparator(s[1..]);
      assert [s[0]] + s[1..] == s;
    }
  }

  /** The outcome of the uri-list branch: nothing, an application, or a decoding error. */
  datatype UriOutcome = NoUriApp | UriApp(app: ExternalApplication) | DecodeError

  /** The first entry of the uri-list is a `file://` URI. */
  predicate IsFileUri(uriList: string)
  {
    FirstEntry(uriList).Some? && Strings.StartsWith(FirstEntry(uriList).value, "file://")
  }

  /** The encoded path of a `file://` first entry: what follows the prefix. */
  function EncodedPath(uriList: string): string
    requires IsFileUri(uriList)
  {
    FirstEntry(uriList).value[|"file://"|..]
  }

  /**
   * The uri-list branch: a first entry starting with `file://` names the path
   * after that prefix, decoded; a decoding failure is an error.
   */
  function FromUriList(uriList: string, stamp: nat, decode: string -> Option<string>): (r: UriOutcome)
    ensures !IsFileUri(uriList) ==> r == NoUriApp
    ensures r == DecodeError <==> IsFileUri(uriList) && decode(EncodedPath(uriList)).None?
    ensures r.UriApp? <==> IsFileUri(uriList) && decode(EncodedPath(uriList)).Some?
    ensures r.UriApp? ==> var path := decode(EncodedPath(uriList)).value;
              && r.app.executablePath == path
              && r.app.name == Stripped(FileName(path), Extensions(true))
              && IsDropRecord(r.app)
  {
    if uriList == [] then
      assert Strings.Split(uriList, {'\n'}) == [[]];
      NoUriApp
    else
      match FirstEntry(uriList)
      case None => NoUriApp
      case Some(uri) =>
        if !Strings.StartsWith(uri, "file://") then NoUriApp
        else
          match decode(uri[|"file://"|..])
          case None => DecodeError
          case Some(path) => UriApp(DroppedApp(stamp, Stripped(FileName(path), Extensions(true)), path))
  }

  /** The plain-text branch: text ending in `.exe` or `.app` (letter case as written) is a path. */
  function FromPlainText(text: string, stamp: nat): (r: Option<ExternalApplication>)
    ensures r.Some? <==> text != [] && (Strings.EndsWith(text, ".exe") || Strings.EndsWith(text, ".app"))
    ensures r.Some? ==> r.value.executablePath == text
                        && r.value.name == Stripped(FileName(text), Extensions(false))
  {
    if text != [] && (Strings.EndsWith(text, ".exe") || Strings.EndsWith(text, ".app")) then
      Some(DroppedApp(stamp, Stripped(FileName(text), Extensions(false)), text))
    else None
  }

  function Reports(app: Option<ExternalApplication>, target: Option<string>): (r: seq<Report>)
    ensures |r| <= 1 && (|r| == 1 <==> app.Some?)
    ensures forall i :: 0 <= i < |r| ==> r[i] == Report(app.value, target)
  {
    if app.Some? then [Report(app.value, target)] else []
  }

  /** A record the zone reports: custom, the box icon, the default colour, the zone's target. */
  predicate Tagged(reports: seq<Report>, target: Option<string>)
  {
    forall i :: 0 <= i < |reports| ==>
      && reports[i].targetSlotId == target && reports[i].app.isCustom
      && reports[i].app.icon == Some("\U{1F4E6}") && reports[i].app.color == Some(Default)
  }

  lemma TaggedAppend(a: seq<Report>, b: seq<Report>, target: Option<string>)
    requires Tagged(a, target) && Tagged(b, target)
    ensures Tagged(a + b, target)
  {
    forall i | 0 <= i < |a + b|
      ensures (a + b)[i] == if i < |a| then a[i] else b[i - |a|]
    {
    }
  }

  predicate IsDropRecord(app: ExternalApplication)
  {
    app.isCustom && app.icon == Some("\U{1F4E6}") && app.color == Some(Default)
  }

  /** The report of the uri-list branch: one for an application, none otherwise. */
  function UriReports(o: UriOutcome, target: Option<string>): seq<Report>
  {
    if o.UriApp? then [Report(o.app, target)] else []
  }

  /** The reports of the three branches, in order; a decoding error ends the drop. */
  function Combined(fromFiles: Option<ExternalApplication>, fromUri: UriOutcome,
                    fromText: Option<ExternalApplication>, target: Option<string>): (r: seq<Report>)
    requires fromFiles.Some? ==> IsDropRecord(fromFiles.value)
    requires fromUri.UriApp? ==> IsDropRecord(fromUri.app)
    requires fromText.Some? ==> IsDropRecord(fromText.value)
    ensures r == Reports(fromFiles, target) + UriReports(fromUri, target)
                 + (if fromUri.DecodeError? then [] else Reports(fromText, target))
    ensures |r| <= 3
    ensures Tagged(r, target)
  {
    var files := Reports(fromFiles, target);
    var plain := Reports(fromText, target);
    match fromUri
    case DecodeError => files
    case NoUriApp =>
      TaggedAppend(files, plain, target);
      files + plain
    case UriApp(app) =>
      var uri := [Report(app, target)];
      TaggedAppend(files, uri, target);
      TaggedAppend(files + uri, plain, target);
      files + uri + plain
  }

  /**
   * handleDrop: the report of the files branch, then that of the uri-list
   * branch, then that of the plain-text branch; a decoding error in the
   * uri-list branch ends the drop before the plain-text branch.
   */
  function Drop(d: DropData, stamp: nat, target: Option<string>, decode: string -> Option<string>): (r: seq<Report>)
    ensures var uri := FromUriList(d.uriList, stamp, decode);
      r == Reports(FromFiles(d.files, stamp), target) + UriReports(uri, target)
           + (if uri.DecodeError? then [] else Reports(FromPlainText(d.plainText, stamp), target))
    ensures |r| <= 3
    ensures Tagged(r, target)
  {
    Combined(FromFiles(d.files, stamp), FromUriList(d.uriList, stamp, decode), FromPlainText(d.plainText, stamp), target)
  }

  /** A drop that carries all three kinds of data can report three applications. */
  lemma ThreeReports(file: DroppedFile, entry: string, text: string, stamp: nat, decode: string -> Option<string>)
    requires IsExecutableName(file.name)
    requires '\n' !in entry && IsEntry(entry) && Strings.Trim(entry) == entry
    requires Strings.StartsWith(entry, "file://") && decode(entry[|"file://"|..]).Some?
    requires Strings.EndsWith(text, ".exe")
    ensures |Drop(DropData([file], entry, text), stamp, None, decode)| == 3
  {
    var fromFiles := FromFiles([file], stamp);
    var fromUri := FromUriList(entry, stamp, decode);
    var fromText := FromPlainText(text, stamp);
    assert fromUri.UriApp? by {
      assert FirstEntry(entry) == Some(entry) by {
        NoSeparator(entry);
        assert Seqs.Find([entry], IsEntry) == Some(entry);
      }
    }
    CombinedThree(fromFiles, fromUri, fromText, None);
  }

  /** When every branch yields an application, the drop reports all three. */
  lemma CombinedThree(fromFiles: Option<ExternalApplication>, fromUri: UriOutcome,
                      fromText: Option<ExternalApplication>, target: Option<string>)
    requires fromFiles.Some? && IsDropRecord(fromFiles.value)
    requires fromUri.UriApp? && IsDropRecord(fromUri.app)
    requires fromText.Some? && IsDropRecord(fromText.value)
    ensures |Combined(fromFiles, fromUri, fromText, target)| == 3
  {
  }

  /**
   * A file whose extension is written with a capital letter is not taken from
   * the files branch (the test is case-sensitive), yet the case-insensitive
   * strip would have named it by its base ("SETUP.EXE" would be "SETUP").
   */
  lemma CapitalExtensionIgnored(base: string, ext: string, path: string, stamp: nat)
    requires |ext| == 4 && Strings.Lower(ext) in Extensions(false) && ext !in Extensions(false)
    ensures FromFiles([DroppedFile(base + ext, path)], stamp).None?
    ensures Stripped(base + ext, Extensions(false)) == base
  {
    CapitalNameNotExecutable(base, ext);
    StripAppended(base, ext, Extensions(false));
  }

  /** The executable test looks at the last four characters as written. */
  lemma CapitalNameNotExecutable(base: string, ext: string)
    requires |ext| == 4
    ensures IsExecutableName(base + ext) <==> ext in Extensions(false)
  {
    var name := base + ext;
    assert name[|name| - 4..] == ext;
  }

  /** A decoding error in the uri-list branch drops the plain-text report. */
  lemma DecodeErrorEndsDrop(d: DropData, stamp: nat, target: Option<string>, decode: string -> Option<string>)
    requires FromUriList(d.uriList, stamp, decode).DecodeError?
    ensures Drop(d, stamp, target, decode) == Reports(FromFiles(d.files, stamp), target)
  {
  }
}

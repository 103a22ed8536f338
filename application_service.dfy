/**
 * The application registry of the hub (src/services/applicationService.ts):
 * the map of custom applications keyed by id, adding and removing custom
 * entries, merging them after the detected applications, the ids of
 * detected applications, and the icon chosen for a browsed executable.
 * Detection itself (file-system probes, platform checks), launching and the
 * settings file are not modelled: detected applications arrive as a list.
 */
module Applications {
  import opened Wrappers
  import opened HubTypes
  import Seqs
  import Strings

  // ---------------------------------------------------------------------
  // The id-keyed map, as an insertion-ordered list with distinct ids
  // ---------------------------------------------------------------------

  predicate DistinctIds(apps: seq<ExternalApplication>)
  {
    forall i, j :: 0 <= i < j < |apps| ==> apps[i].id != apps[j].id
  }

  function HasId(id: string): ExternalApplication -> bool
  {
    (a: ExternalApplication) => a.id == id
  }

  /** `map.get(id)`. */
  function Lookup(apps: seq<ExternalApplication>, id: string): (r: Option<ExternalApplication>)
    ensures r.Some? <==> exists i :: 0 <= i < |apps| && apps[i].id == id
    ensures r.Some? ==> r.value in apps && r.value.id == id
  {
    Seqs.Find(apps, HasId(id))
  }

  /** The index of the entry with the id, if any. */
  function IndexOfId(apps: seq<ExternalApplication>, id: string): (r: int)
    ensures -1 <= r < |apps|
    ensures r >= 0 ==> apps[r].id == id
    ensures r == -1 <==> forall i :: 0 <= i < |apps| ==> apps[i].id != id
  {
    if apps == [] then -1
    else if apps[|apps| - 1].id == id then |apps| - 1
    else IndexOfId(apps[..|apps| - 1], id)
  }

  /** `map.set(app.id, app)`: an existing key keeps its place and takes the new value; a new key goes last. */
  function MapSet(apps: seq<ExternalApplication>, app: ExternalApplication): (r: seq<ExternalApplication>)
    ensures DistinctIds(apps) ==> DistinctIds(r)
    ensures var k := IndexOfId(apps, app.id);
      && (k >= 0 ==> r == apps[k := app])
      && (k == -1 ==> r == apps + [app])
  {
    var k := IndexOfId(apps, app.id);
    if k >= 0 then apps[k := app] else apps + [app]
  }

  /** `map.delete(id)`. */
  function MapDelete(apps: seq<ExternalApplication>, id: string): (r: seq<ExternalApplication>)
    ensures forall i :: 0 <= i < |r| ==> r[i].id != id
    ensures forall i :: 0 <= i < |apps| && apps[i].id != id ==> apps[i] in r
  {
    Seqs.Filter(apps, (a: ExternalApplication) => a.id != id)
  }

  /** After a set, the key maps to the new value and every other key to what it did. */
  lemma MapSetLookup(apps: seq<ExternalApplication>, app: ExternalApplication, id: string)
    requires DistinctIds(apps)
    ensures Lookup(MapSet(apps, app), app.id) == Some(app)
    ensures id != app.id ==> Lookup(MapSet(apps, app), id) == Lookup(apps, id)
  {
    var r := MapSet(apps, app);
    var k := IndexOfId(apps, app.id);
    var p := if k >= 0 then k else |apps|;
    assert r[p] == app;
    UniqueLookup(r, app.id, p);
    if id != app.id {
      if Lookup(apps, id).Some? {
        var i :| 0 <= i < |apps| && apps[i].id == id;
        assert r[i] == apps[i];
        UniqueLookup(apps, id, i);
        UniqueLookup(r, id, i);
      } else {
        forall i | 0 <= i < |r|
          ensures r[i].id != id
        {
          if i != p {
            assert r[i] == apps[i];
          }
        }
      }
    }
  }

  /** With distinct ids, looking an id up finds the one entry holding it. */
  lemma UniqueLookup(apps: seq<ExternalApplication>, id: string, i: int)
    requires DistinctIds(apps) && 0 <= i < |apps| && apps[i].id == id
    ensures Lookup(apps, id) == Some(apps[i])
  {
  }

  /** After a delete the key is gone and every other key maps to what it did. */
  lemma MapDeleteLookup(apps: seq<ExternalApplication>, id: string, other: string)
    requires DistinctIds(apps)
    ensures Lookup(MapDelete(apps, id), id).None?
    ensures other != id ==> Lookup(MapDelete(apps, id), other) == Lookup(apps, other)
    ensures DistinctIds(MapDelete(apps, id))
  {
    assert DistinctIds(MapDelete(apps, id)) by {
      Seqs.FilterIsSubsequence(apps, (a: ExternalApplication) => a.id != id);
      SubsequenceDistinct(MapDelete(apps, id), apps);
    }
    if other != id {
      MapDeleteKeeps(apps, id, other);
    }
  }

  /** Deleting one key leaves the lookup of any other key as it was. */
  lemma MapDeleteKeeps(apps: seq<ExternalApplication>, id: string, other: string)
    requires DistinctIds(apps) && DistinctIds(MapDelete(apps, id)) && other != id
    ensures Lookup(MapDelete(apps, id), other) == Lookup(apps, other)
  {
    var r := MapDelete(apps, id);
    if Lookup(apps, other).Some? {
      var i :| 0 <= i < |apps| && apps[i].id == other;
      assert apps[i] in r;
      var j :| 0 <= j < |r| && r[j] == apps[i];
      UniqueLookup(apps, other, i);
      UniqueLookup(r, other, j);
    } else {
      forall j | 0 <= j < |r|
        ensures r[j].id != other
      {
        assert r[j] in apps;
      }
    }
  }

  /** A subsequence of a list with distinct ids has distinct ids. */
  lemma {:induction false} SubsequenceDistinct(xs: seq<ExternalApplication>, ys: seq<ExternalApplication>)
    requires Seqs.IsSubsequence(xs, ys) && DistinctIds(ys)
    ensures DistinctIds(xs)
    decreases |ys|
  {
    if xs != [] && ys != [] {
      assert DistinctIds(ys[1..]) by {
        assert forall i :: 0 <= i < |ys| - 1 ==> ys[1..][i] == ys[i + 1];
      }
      if xs[0] == ys[0] {
        SubsequenceDistinct(xs[1..], ys[1..]);
        SubsequenceMembers(xs[1..], ys[1..]);
        forall j | 1 <= j < |xs|
          ensures xs[0].id != xs[j].id
        {
          assert xs[j] == xs[1..][j - 1];
        }
        forall i, j | 0 <= i < j < |xs|
          ensures xs[i].id != xs[j].id
        {
          if i > 0 {
            assert xs[i] == xs[1..][i - 1] && xs[j] == xs[1..][j - 1];
          }
        }
      } else {
        SubsequenceDistinct(xs, ys[1..]);
      }
    }
  }

  /** Every element of a subsequence is an element after the head of the list it came from. */
  lemma {:induction false} SubsequenceMembers(xs: seq<ExternalApplication>, ys: seq<ExternalApplication>)
    requires Seqs.IsSubsequence(xs, ys)
    ensures forall j :: 0 <= j < |xs| ==> xs[j] in ys
    decreases |ys|
  {
    if xs != [] && ys != [] {
      if xs[0] == ys[0] {
        SubsequenceMembers(xs[1..], ys[1..]);
        forall j | 0 <= j < |xs|
          ensures xs[j] in ys
        {
          if j > 0 {
            assert xs[j] == xs[1..][j - 1];
          }
        }
      } else {
        SubsequenceMembers(xs, ys[1..]);
      }
    }
  }

  /** Loading the stored custom applications: one `set` per entry, in order. */
  function Loaded(custom: seq<ExternalApplication>): (r: seq<ExternalApplication>)
    ensures DistinctIds(r)
  {
    if custom == [] then [] else MapSet(Loaded(custom[..|custom| - 1]), custom[|custom| - 1])
  }

  // ---------------------------------------------------------------------
  // Adding, removing, merging
  // ---------------------------------------------------------------------

  /** What the caller supplies for a new application (everything but id and isCustom). */
  datatype AppData = AppData(
    name: string,
    executablePath: string,
    arguments: Option<seq<string>>,
    workingDirectory: Option<string>,
    icon: Option<string>,
    color: Option<HexagonColor>)

  /** The id of a custom application: `custom-<milliseconds>-<random suffix>`. */
  function CustomId(now: nat, suffix: string): (id: string)
    ensures Strings.StartsWith(id, "custom-")
  {
    "custom-" + Strings.Decimal(now) + "-" + suffix
  }

  function CustomApp(data: AppData, id: string): (app: ExternalApplication)
    ensures app.id == id && app.isCustom
    ensures app.name == data.name && app.executablePath == data.executablePath && app.icon == data.icon
    ensures app.arguments == data.arguments && app.workingDirectory == data.workingDirectory && app.color == data.color
  {
    ExternalApplication(id, data.name, data.executablePath, data.arguments, data.workingDirectory,
                        data.icon, data.color, true)
  }

  predicate SamePath(path: string, a: ExternalApplication) { a.executablePath == path }

  predicate HasPath(apps: seq<ExternalApplication>, path: string)
  {
    exists i :: 0 <= i < |apps| && apps[i].executablePath == path
  }

  /**
   * getInstalledApplications: the detected applications, then each custom one
   * whose executable path is not already listed.
   */
  function Merged(detected: seq<ExternalApplication>, custom: seq<ExternalApplication>): (r: seq<ExternalApplication>)
    ensures |r| >= |detected| && r[..|detected|] == detected
    ensures forall i :: 0 <= i < |r| ==> r[i] in detected || r[i] in custom
  {
    if custom == [] then detected
    else
      var m := Merged(detected, custom[..|custom| - 1]);
      var c := custom[|custom| - 1];
      if HasPath(m, c.executablePath) then m else m + [c]
  }

  predicate DistinctPaths(apps: seq<ExternalApplication>)
  {
    forall i, j :: 0 <= i < j < |apps| ==> apps[i].executablePath != apps[j].executablePath
  }

  /**
   * The merge lists every custom path, and adds no duplicate path: if the
   * detected paths are distinct, so are the merged ones.
   */
  lemma {:induction false} MergedPaths(detected: seq<ExternalApplication>, custom: seq<ExternalApplication>)
    ensures forall k :: 0 <= k < |custom| ==> HasPath(Merged(detected, custom), custom[k].executablePath)
    ensures DistinctPaths(detected) ==> DistinctPaths(Merged(detected, custom))
  {
    if custom != [] {
      var init := custom[..|custom| - 1];
      MergedPaths(detected, init);
      var m := Merged(detected, init);
      var r := Merged(detected, custom);
      assert r[..|m|] == m;
      forall k | 0 <= k < |custom|
        ensures HasPath(r, custom[k].executablePath)
      {
        if k < |custom| - 1 {
          assert custom[k] == init[k];
          var i :| 0 <= i < |m| && m[i].executablePath == custom[k].executablePath;
          assert r[i] == m[i];
        } else if !HasPath(m, custom[k].executablePath) {
          assert r[|r| - 1] == custom[k];
        }
      }
      if DistinctPaths(detected) {
        AppendNewPath(m, custom[|custom| - 1]);
      }
    }
  }

  /** Appending an application whose path is not listed keeps the paths distinct. */
  lemma AppendNewPath(m: seq<ExternalApplication>, c: ExternalApplication)
    requires DistinctPaths(m)
    ensures DistinctPaths(if HasPath(m, c.executablePath) then m else m + [c])
  {
    if !HasPath(m, c.executablePath) {
      var r := m + [c];
      forall i, j | 0 <= i < j < |r|
        ensures r[i].executablePath != r[j].executablePath
      {
        assert r[i] == m[i];
        if j < |m| {
          assert r[j] == m[j];
        }
      }
    }
  }

  // ---------------------------------------------------------------------
  // Ids of detected applications
  // ---------------------------------------------------------------------

  /** `replace(/\s+/g, "-")`: every run of white space becomes one dash. */
  function DashRuns(s: string): (r: string)
    ensures |r| <= |s|
    ensures forall i :: 0 <= i < |r| ==> !Strings.IsSpace(r[i])
    ensures forall i :: 0 <= i < |r| ==> r[i] == '-' || r[i] in s
    ensures (forall i :: 0 <= i < |s| ==> !Strings.IsSpace(s[i])) ==> r == s
  {
    if s == [] then []
    else if Strings.IsSpace(s[0]) then
      if |s| > 1 && Strings.IsSpace(s[1]) then DashRuns(s[1..]) else "-" + DashRuns(s[1..])
    else
      assert forall i :: 1 <= i < |s| ==> s[i] == s[1..][i - 1];
      [s[0]] + DashRuns(s[1..])
  }

  /** A non-empty run of white space alone becomes one dash. */
  lemma {:induction false} DashRunsOfBlank(w: string, b: string)
    requires w != [] && Strings.AllSpace(w)
    requires b == [] || !Strings.IsSpace(b[0])
    ensures DashRuns(w + b) == "-" + DashRuns(b)
    decreases |w|
  {
    var s := w + b;
    assert s[0] == w[0] && s[1..] == w[1..] + b;
    if |w| == 1 {
      assert s[1..] == b;
    } else {
      assert s[1] == w[1];
      DashRunsOfBlank(w[1..], b);
    }
  }

  /** Joining with a dash after a prefix: the prefix can be taken out. */
  lemma PrefixJoin(c: string, x: string, y: string)
    ensures c + (x + "-" + y) == (c + x) + "-" + y
  {
  }

  /**
   * Each maximal run of white space becomes exactly one dash: a run `w`
   * between text `a` that does not end in white space and text `b` that does
   * not start with it is replaced by a single "-".
   */
  lemma {:induction false} DashRunsJoin(a: string, w: string, b: string)
    requires a == [] || !Strings.IsSpace(a[|a| - 1])
    requires w != [] && Strings.AllSpace(w)
    requires b == [] || !Strings.IsSpace(b[0])
    ensures DashRuns(a + w + b) == DashRuns(a) + "-" + DashRuns(b)
    decreases |a|
  {
    if a == [] {
      assert a + w + b == w + b;
      DashRunsOfBlank(w, b);
    } else {
      var s := a + w + b;
      var t := a[1..] + w + b;
      assert s[0] == a[0] && s[1..] == t;
      DashRunsJoin(a[1..], w, b);
      var x, y := DashRuns(a[1..]), DashRuns(b);
      if !Strings.IsSpace(a[0]) {
        assert DashRuns(s) == [a[0]] + DashRuns(t);
        assert DashRuns(a) == [a[0]] + x;
        PrefixJoin([a[0]], x, y);
      } else {
        assert |a| > 1 && s[1] == a[1];
        if Strings.IsSpace(a[1]) {
          assert DashRuns(s) == DashRuns(t);
          assert DashRuns(a) == x;
        } else {
          assert DashRuns(s) == "-" + DashRuns(t);
          assert DashRuns(a) == "-" + x;
          PrefixJoin("-", x, y);
        }
      }
    }
  }

  /** The name part of a detected id: lower case, white-space runs turned into dashes. */
  function Slug(name: string): (r: string)
    ensures |r| <= |name|
    ensures forall i :: 0 <= i < |r| ==> !Strings.IsSpace(r[i]) && !Strings.IsUpper(r[i])
    ensures (forall i :: 0 <= i < |name| ==> !Strings.IsSpace(name[i])) ==> r == Strings.Lower(name)
  {
    DashRuns(Strings.Lower(name))
  }

  /** Slugs join the same way: a white-space run between two words becomes one dash. */
  lemma SlugJoin(a: string, w: string, b: string)
    requires a == [] || !Strings.IsSpace(a[|a| - 1])
    requires w != [] && Strings.AllSpace(w)
    requires b == [] || !Strings.IsSpace(b[0])
    ensures Slug(a + w + b) == Slug(a) + "-" + Slug(b)
  {
    var la, lw, lb := Strings.Lower(a), Strings.Lower(w), Strings.Lower(b);
    assert Strings.Lower(a + w + b) == la + lw + lb;
    assert Strings.AllSpace(lw);
    DashRunsJoin(la, lw, lb);
  }

  /** Slugs are fixed points: slugging a slug changes nothing. */
  lemma SlugIdempotent(name: string)
    ensures Slug(Slug(name)) == Slug(name)
  {
    var s := Slug(name);
    assert Strings.Lower(s) == s;
  }

  /** A command with no directory separator, run from the search path. */
  predicate BareCommand(path: string)
  {
    !Strings.Contains(path, "\\") && !Strings.Contains(path, "/")
  }

  /**
   * The id of a detected application: `system-` and the slug of its name for
   * a bare command, `detected-` and the slug for a full path.
   */
  function DetectedId(path: string, name: string): (id: string)
    ensures BareCommand(path) ==> Strings.StartsWith(id, "system-") && id[|"system-"|..] == Slug(name)
    ensures !BareCommand(path) ==> Strings.StartsWith(id, "detected-") && id[|"detected-"|..] == Slug(name)
  {
    (if BareCommand(path) then "system-" else "detected-") + Slug(name)
  }

  // ---------------------------------------------------------------------
  // Icons for browsed executables
  // ---------------------------------------------------------------------

  /** A name rule: any of the keywords in the lower-cased name selects the icon. */
  datatype Rule = Rule(keywords: seq<string>, icon: string)

  /** Browsers. */
  function BrowserRules(): seq<Rule>
  {
    [
      /*  0 */ Rule(["chrome", "google"], "\U{1F310}"),
      /*  1 */ Rule(["firefox", "mozilla"], "\U{1F98A}"),
      /*  2 */ Rule(["edge", "msedge"], "\U{1F310}"),
      /*  3 */ Rule(["brave"], "\U{1F981}"),
      /*  4 */ Rule(["opera"], "\U{1F3AD}"),
      /*  5 */ Rule(["safari"], "\U{1F9ED}"),
      /*  6 */ Rule(["vivaldi"], "\U{1F310}")
    ]
  }

  /** Development tools. */
  function DevelopmentRules(): seq<Rule>
  {
    [
      /*  7 */ Rule(["code", "vscode"], "\U{1F4BB}"),
      /*  8 */ Rule(["studio", "visual"], "\U{1F6E0}\U{FE0F}"),
      /*  9 */ Rule(["atom"], "\U{269B}\U{FE0F}"),
      /* 10 */ Rule(["sublime"], "\U{1F4DD}"),
      /* 11 */ Rule(["notepad", "text"], "\U{1F4DD}"),
      /* 12 */ Rule(["intellij", "idea"], "\U{1F9E0}"),
      /* 13 */ Rule(["eclipse"], "\U{1F319}"),
      /* 14 */ Rule(["webstorm"], "\U{1F578}\U{FE0F}"),
      /* 15 */ Rule(["pycharm"], "\U{1F40D}")
    ]
  }

  /** Media applications. */
  function MediaRules(): seq<Rule>
  {
    [
      /* 16 */ Rule(["spotify"], "\U{1F3B5}"),
      /* 17 */ Rule(["vlc"], "\U{1F3AC}"),
      /* 18 */ Rule(["media", "player"], "\U{1F3A5}"),
      /* 19 */ Rule(["photo", "image"], "\U{1F5BC}\U{FE0F}"),
      /* 20 */ Rule(["gimp"], "\U{1F3A8}"),
      /* 21 */ Rule(["photoshop"], "\U{1F3A8}"),
      /* 22 */ Rule(["illustrator"], "\U{270F}\U{FE0F}"),
      /* 23 */ Rule(["premiere"], "\U{1F3AC}"),
      /* 24 */ Rule(["audacity"], "\U{1F3A7}")
    ]
  }

  /** Communication. */
  function CommunicationRules(): seq<Rule>
  {
    [
      /* 25 */ Rule(["discord"], "\U{1F4AC}"),
      /* 26 */ Rule(["slack"], "\U{1F4BC}"),
      /* 27 */ Rule(["teams"], "\U{1F465}"),
      /* 28 */ Rule(["zoom"], "\U{1F4F9}"),
      /* 29 */ Rule(["skype"], "\U{1F4DE}"),
      /* 30 */ Rule(["telegram"], "\U{2708}\U{FE0F}"),
      /* 31 */ Rule(["whatsapp"], "\U{1F4AC}")
    ]
  }

  /** Gaming. */
  function GamingRules(): seq<Rule>
  {
    [
      /* 32 */ Rule(["steam"], "\U{1F3AE}"),
      /* 33 */ Rule(["game", "gaming"], "\U{1F3AE}"),
      /* 34 */ Rule(["origin"], "\U{1F3AE}"),
      /* 35 */ Rule(["epic"], "\U{1F3AE}"),
      /* 36 */ Rule(["minecraft"], "\U{26CF}\U{FE0F}")
    ]
  }

  /** Office applications. */
  function OfficeRules(): seq<Rule>
  {
    [
      /* 37 */ Rule(["word", "writer"], "\U{1F4C4}"),
      /* 38 */ Rule(["excel", "calc"], "\U{1F4CA}"),
      /* 39 */ Rule(["powerpoint", "impress"], "\U{1F4C8}"),
      /* 40 */ Rule(["pdf"], "\U{1F4D5}"),
      /* 41 */ Rule(["acrobat"], "\U{1F4D5}"),
      /* 42 */ Rule(["outlook"], "\U{1F4E7}"),
      /* 43 */ Rule(["onenote"], "\U{1F4D3}")
    ]
  }

  /** System tools. */
  function SystemRules(): seq<Rule>
  {
    [
      /* 44 */ Rule(["terminal", "cmd", "powershell"], "\U{2328}\U{FE0F}"),
      /* 45 */ Rule(["calculator", "calc"], "\U{1F9EE}"),
      /* 46 */ Rule(["paint"], "\U{1F3A8}"),
      /* 47 */ Rule(["file", "explorer"], "\U{1F4C1}"),
      /* 48 */ Rule(["control", "settings"], "\U{2699}\U{FE0F}"),
      /* 49 */ Rule(["task", "manager"], "\U{1F4CA}")
    ]
  }

  /** Cloud storage. */
  function CloudRules(): seq<Rule>
  {
    [
      /* 50 */ Rule(["dropbox"], "\U{2601}\U{FE0F}"),
      /* 51 */ Rule(["drive", "google"], "\U{1F4BE}"),
      /* 52 */ Rule(["onedrive"], "\U{2601}\U{FE0F}"),
      /* 53 */ Rule(["box"], "\U{1F4E6}")
    ]
  }

  /** Security and VPN. */
  function SecurityRules(): seq<Rule>
  {
    [
      /* 54 */ Rule(["vpn"], "\U{1F510}"),
      /* 55 */ Rule(["antivirus", "security"], "\U{1F6E1}\U{FE0F}")
    ]
  }

  /** Utilities. */
  function UtilityRules(): seq<Rule>
  {
    [
      /* 56 */ Rule(["7zip", "winrar"], "\U{1F4E6}"),
      /* 57 */ Rule(["torrent"], "\U{2B07}\U{FE0F}")
    ]
  }

  /** The name rules, in the order they are tried (58 of them). */
  function IconRules(): seq<Rule>
  {
    BrowserRules()
    + DevelopmentRules()
    + MediaRules()
    + CommunicationRules()
    + GamingRules()
    + OfficeRules()
    + SystemRules()
    + CloudRules()
    + SecurityRules()
    + UtilityRules()
  }

  predicate RuleMatches(name: string, rule: Rule)
  {
    exists k :: 0 <= k < |rule.keywords| && Strings.Contains(name, rule.keywords[k])
  }

  /** The first rule at or after `from` that matches. */
  function FirstMatch(name: string, rules: seq<Rule>, from: nat): (r: Option<nat>)
    requires from <= |rules|
    ensures r.Some? ==> from <= r.value < |rules| && RuleMatches(name, rules[r.value])
                        && forall j :: from <= j < r.value ==> !RuleMatches(name, rules[j])
    ensures r.None? ==> forall j :: from <= j < |rules| ==> !RuleMatches(name, rules[j])
    decreases |rules| - from
  {
    if from == |rules| then None
    else if RuleMatches(name, rules[from]) then Some(from)
    else FirstMatch(name, rules, from + 1)
  }

  /** The fallback on the lower-cased path: .exe 💾, .app 📱, .bat or .cmd ⚡, else 📦. */
  function ExtensionIcon(path: string): (icon: string)
    ensures Strings.EndsWith(path, ".exe") ==> icon == "\U{1F4BE}"
    ensures !Strings.EndsWith(path, ".exe") && Strings.EndsWith(path, ".app") ==> icon == "\U{1F4F1}"
    ensures (!Strings.EndsWith(path, ".exe") && !Strings.EndsWith(path, ".app")
             && (Strings.EndsWith(path, ".bat") || Strings.EndsWith(path, ".cmd"))) ==> icon == "\U{26A1}"
    ensures (!Strings.EndsWith(path, ".exe") && !Strings.EndsWith(path, ".app")
             && !Strings.EndsWith(path, ".bat") && !Strings.EndsWith(path, ".cmd")) ==> icon == "\U{1F4E6}"
  {
    if Strings.EndsWith(path, ".exe") then "\U{1F4BE}"
    else if Strings.EndsWith(path, ".app") then "\U{1F4F1}"
    else if Strings.EndsWith(path, ".bat") || Strings.EndsWith(path, ".cmd") then "\U{26A1}"
    else "\U{1F4E6}"
  }

  /** getIconForApplication: the first matching name rule, else the extension fallback. */
  function IconFor(fileName: string, filePath: string): (icon: string)
    ensures var m := FirstMatch(Strings.Lower(fileName), IconRules(), 0);
      && (m.Some? ==> icon == IconRules()[m.value].icon)
      && (m.None? ==> icon == ExtensionIcon(Strings.Lower(filePath)))
  {
    match FirstMatch(Strings.Lower(fileName), IconRules(), 0)
    case Some(k) => IconRules()[k].icon
    case None => ExtensionIcon(Strings.Lower(filePath))
  }

  /** The word contains one of the rule's keywords. */
  predicate CoveredBy(word: string, rule: Rule)
  {
    exists m :: 0 <= m < |rule.keywords| && Strings.Contains(word, rule.keywords[m])
  }

  /** Every keyword of `later` contains a keyword of `earlier`. */
  predicate Shadows(earlier: Rule, later: Rule)
  {
    forall k :: 0 <= k < |later.keywords| ==> CoveredBy(later.keywords[k], earlier)
  }

  lemma ShadowedMatch(name: string, earlier: Rule, later: Rule)
    requires Shadows(earlier, later) && RuleMatches(name, later)
    ensures RuleMatches(name, earlier)
  {
    var k :| 0 <= k < |later.keywords| && Strings.Contains(name, later.keywords[k]);
    assert CoveredBy(later.keywords[k], earlier);
    var m :| 0 <= m < |earlier.keywords| && Strings.Contains(later.keywords[k], earlier.keywords[m]);
    Strings.ContainsTransitive(name, later.keywords[k], earlier.keywords[m]);
  }

  /** A rule shadowed by an earlier one is never the first match. */
  lemma ShadowedNeverFirst(name: string, rules: seq<Rule>, j: nat, k: nat)
    requires j < k < |rules| && Shadows(rules[j], rules[k])
    ensures FirstMatch(name, rules, 0) != Some(k)
  {
    if RuleMatches(name, rules[k]) {
      ShadowedMatch(name, rules[j], rules[k]);
    }
  }

  /** `later` is shadowed when each of its keywords contains the earlier rule's keyword at `m`. */
  lemma ShadowedBy(earlier: Rule, later: Rule, m: nat)
    requires m < |earlier.keywords|
    requires forall k :: 0 <= k < |later.keywords| ==> Strings.Contains(later.keywords[k], earlier.keywords[m])
    ensures Shadows(earlier, later)
  {
    forall k | 0 <= k < |later.keywords|
      ensures CoveredBy(later.keywords[k], earlier)
    {
      assert Strings.Contains(later.keywords[k], earlier.keywords[m]);
    }
  }

  /**
   * The calculator rule (🧮) can never fire: "calculator" and "calc" both
   * contain "calc", which the earlier spreadsheet rule (📊) already tests.
   */
  lemma CalculatorRuleUnreachable(fileName: string)
    ensures IconRules()[45].icon == "\U{1F9EE}" && IconRules()[38].icon == "\U{1F4CA}"
    ensures FirstMatch(Strings.Lower(fileName), IconRules(), 0) != Some(45)
  {
    var rules := IconRules();
    assert rules[38].keywords == ["excel", "calc"];
    assert rules[45].keywords == ["calculator", "calc"];
    assert Strings.OccursAt("calculator", "calc", 0);
    assert Strings.OccursAt("calc", "calc", 0);
    ShadowedBy(rules[38], rules[45], 1);
    ShadowedNeverFirst(Strings.Lower(fileName), rules, 38, 45);
  }

  /** The photoshop rule (🎨) is shadowed by the earlier "photo" rule (🖼️). */
  lemma PhotoshopRuleUnreachable(fileName: string)
    ensures IconRules()[21].keywords == ["photoshop"]
    ensures FirstMatch(Strings.Lower(fileName), IconRules(), 0) != Some(21)
  {
    var rules := IconRules();
    assert rules[19].keywords == ["photo", "image"];
    assert rules[21].keywords == ["photoshop"];
    assert Strings.OccursAt("photoshop", "photo", 0);
    ShadowedBy(rules[19], rules[21], 0);
    ShadowedNeverFirst(Strings.Lower(fileName), rules, 19, 21);
  }

  /** The onedrive rule (☁️) is shadowed by the earlier "drive" rule (💾). */
  lemma OneDriveRuleUnreachable(fileName: string)
    ensures IconRules()[52].keywords == ["onedrive"]
    ensures FirstMatch(Strings.Lower(fileName), IconRules(), 0) != Some(52)
  {
    var rules := IconRules();
    assert rules[51].keywords == ["drive", "google"];
    assert rules[52].keywords == ["onedrive"];
    assert Strings.OccursAt("onedrive", "drive", 3);
    ShadowedBy(rules[51], rules[52], 0);
    ShadowedNeverFirst(Strings.Lower(fileName), rules, 51, 52);
  }

  /** Any name containing "google" gets the globe from the first rule, never the drive icon. */
  lemma GoogleGetsGlobe(fileName: string, filePath: string)
    requires Strings.Contains(Strings.Lower(fileName), "google")
    ensures IconFor(fileName, filePath) == "\U{1F310}"
  {
    var rules := IconRules();
    assert rules[0] == Rule(["chrome", "google"], "\U{1F310}");
    assert rules[0].keywords[1] == "google";
    assert RuleMatches(Strings.Lower(fileName), rules[0]);
  }

  // ---------------------------------------------------------------------
  // The service object
  // ---------------------------------------------------------------------

  class ApplicationService {
    /** The custom applications, keyed by id, in insertion order. */
    var applications: seq<ExternalApplication>

    ghost predicate Valid()
      reads this
    {
      DistinctIds(applications)
    }

    /** Construction loads the stored custom applications one by one. */
    constructor (stored: seq<ExternalApplication>)
      ensures applications == Loaded(stored) && Valid()
    {
      var loaded := [];
      for i := 0 to |stored|
        invariant loaded == Loaded(stored[..i])
      {
        assert stored[..i + 1][..i] == stored[..i];
        loaded := MapSet(loaded, stored[i]);
      }
      assert stored[..|stored|] == stored;
      applications := loaded;
    }

    method AddCustomApplication(data: AppData, now: nat, suffix: string) returns (app: ExternalApplication)
      requires Valid()
      modifies this
      ensures app == CustomApp(data, CustomId(now, suffix))
      ensures applications == MapSet(old(applications), app) && Valid()
      ensures Lookup(applications, app.id) == Some(app)
    {
      app := CustomApp(data, CustomId(now, suffix));
      MapSetLookup(applications, app, app.id);
      applications := MapSet(applications, app);
    }

    method RemoveCustomApplication(id: string) returns (removed: bool)
      requires Valid()
      modifies this
      ensures removed <==> Lookup(old(applications), id).Some? && Lookup(old(applications), id).value.isCustom
      ensures removed ==> applications == MapDelete(old(applications), id) && Lookup(applications, id).None?
      ensures !removed ==> applications == old(applications)
      ensures Valid()
    {
      var app := Lookup(applications, id);
      if app.Some? && app.value.isCustom {
        MapDeleteLookup(applications, id, id);
        applications := MapDelete(applications, id);
        return true;
      }
      return false;
    }

    method GetInstalledApplications(detected: seq<ExternalApplication>) returns (all: seq<ExternalApplication>)
      ensures all == Merged(detected, applications)
    {
      var custom := applications;
      all := detected;
      for i := 0 to |custom|
        invariant all == Merged(detected, custom[..i])
      {
        assert custom[..i + 1][..i] == custom[..i];
        var c := custom[i];
        if Seqs.Find(all, (a: ExternalApplication) => a.executablePath == c.executablePath).None? {
          all := all + [c];
        }
      }
      assert custom[..|custom|] == custom;
    }
  }
}

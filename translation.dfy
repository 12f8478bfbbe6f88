/**
 * The static translation function `t(key)` of utils/translation.ts: the
 * language comes from the saved settings, the dotted key is walked through
 * a nested table, and any miss restarts the walk from the English table.
 * The language is a parameter; reading it from storage is `StaticLanguage`.
 */
module Translation {
  import opened Wrappers
  import opened Strings

  /** A node of the nested table: a translated string or a table of children. */
  datatype Entry = Text(text: string) | Table(entries: map<string, Entry>)

  /** The saved "municipalSettings" entry, as far as `t` reads it. */
  datatype SavedSettings = SavedSettings(language: Option<string>)

  /**
   * The language `t` uses: "en" outside a browser, without saved settings,
   * or when the saved language is missing or empty (`parsed.language || "en"`).
   */
  function StaticLanguage(inBrowser: bool, saved: Option<SavedSettings>): (language: string)
    ensures language != ""
    ensures !(inBrowser && saved.Some? && saved.value.language.Some? && saved.value.language.value != "") ==>
      language == "en"
    ensures inBrowser && saved.Some? && saved.value.language.Some? && saved.value.language.value != "" ==>
      language == saved.value.language.value
  {
    if !inBrowser then "en"
    else match saved
      case None => "en"
      case Some(settings) =>
        if settings.language.Some? && settings.language.value != "" then settings.language.value else "en"
  }

  /** One step of the walk: the child named `k`, if `value` is a table that has it. */
  function Step(value: Option<Entry>, k: string): Option<Entry>
  {
    if value.Some? && value.value.Table? && k in value.value.entries then Some(value.value.entries[k]) else None
  }

  /** The node reached by following `path` from `value`, or `None` on a miss. */
  function Walk(value: Option<Entry>, path: seq<string>): Option<Entry>
    decreases path
  {
    if path == [] then value else Walk(Step(value, path[0]), path[1..])
  }

  /** A walk that has missed stays missed. */
  lemma {:induction false} WalkFromNone(path: seq<string>)
    ensures Walk(None, path) == None
  {
    if path != [] {
      WalkFromNone(path[1..]);
    }
  }

  /** Walking a path segment by segment: the last segment is one more step. */
  lemma {:induction false} WalkSnoc(value: Option<Entry>, path: seq<string>, k: string)
    ensures Walk(value, path + [k]) == Step(Walk(value, path), k)
    decreases path
  {
    if path != [] {
      assert (path + [k])[1..] == path[1..] + [k];
      WalkSnoc(Step(value, path[0]), path[1..], k);
    }
  }

  /** The table of a language, if there is one. */
  function Root(translations: map<string, Entry>, language: string): Option<Entry>
  {
    if language in translations then Some(translations[language]) else None
  }

  /** The string at a node, or the key when the node is missing or is a table. */
  function TextOr(node: Option<Entry>, key: string): string
  {
    if node.Some? && node.value.Text? then node.value.text else key
  }

  /**
   * What `t(key)` returns: the selected language's string when the whole
   * path exists there; the key when the path ends on a table; after a miss,
   * the English string, or the key if English misses or ends on a table.
   */
  function Lookup(translations: map<string, Entry>, language: string, key: string): string
  {
    var keys := Split(key, '.');
    var found := Walk(Root(translations, language), keys);
    if found.Some? then TextOr(found, key)
    else TextOr(Walk(Root(translations, "en"), keys), key)
  }

  /** `t(key)` as utils/translation.ts runs it: a loop over the segments with a nested English loop. */
  method T(translations: map<string, Entry>, language: string, key: string) returns (r: string)
    ensures r == Lookup(translations, language, key)
  {
    var keys := Split(key, '.');
    ghost var root := Root(translations, language);
    var value := Root(translations, language);
    var i := 0;
    while i < |keys|
      invariant 0 <= i <= |keys|
      invariant i > 0 ==> value.Some?
      invariant Walk(value, keys[i..]) == Walk(root, keys)
    {
      var k := keys[i];
      if value.Some? && value.value.Table? && k in value.value.entries {
        value := Some(value.value.entries[k]);
      } else {
        // a miss: restart from the English table
        WalkFromNone(keys[i + 1..]);
        assert Walk(root, keys) == None;
        value := Root(translations, "en");
        var j := 0;
        while j < |keys|
          invariant 0 <= j <= |keys|
          invariant Walk(value, keys[j..]) == Walk(Root(translations, "en"), keys)
        {
          var fallbackKey := keys[j];
          if value.Some? && value.value.Table? && fallbackKey in value.value.entries {
            value := Some(value.value.entries[fallbackKey]);
          } else {
            WalkFromNone(keys[j + 1..]);
            return key;
          }
          j := j + 1;
        }
        assert keys[|keys|..] == [];
        return TextOr(value, key);
      }
      i := i + 1;
    }
    assert keys[|keys|..] == [];
    return TextOr(value, key);
  }

  /** The result is the key itself or a string stored in the table. */
  lemma LookupIsKeyOrText(translations: map<string, Entry>, language: string, key: string)
    ensures var r := Lookup(translations, language, key);
      || r == key
      || Walk(Root(translations, language), Split(key, '.')) == Some(Text(r))
      || Walk(Root(translations, "en"), Split(key, '.')) == Some(Text(r))
  {
  }

  /** A language without a table behaves exactly like English. */
  lemma AbsentLanguageIsEnglish(translations: map<string, Entry>, language: string, key: string)
    requires language !in translations
    ensures Lookup(translations, language, key) == Lookup(translations, "en", key)
  {
    WalkFromNone(Split(key, '.'));
  }

  /** A path that misses in the selected language is looked up again in English. */
  lemma MissFallsBackToEnglish(translations: map<string, Entry>, language: string, key: string)
    requires Walk(Root(translations, language), Split(key, '.')) == None
    ensures Lookup(translations, language, key) == Lookup(translations, "en", key)
  {
    WalkFromNone(Split(key, '.'));
  }

  /** The English table. */
  const English: Entry := Table(map[
    "nav" := Table(map[
      "dashboard" := Text("Dashboard"),
      "mapView" := Text("Map View"),
      "problems" := Text("Problems"),
      "settings" := Text("Settings"),
      "signOut" := Text("Sign Out")
    ]),
    "dashboard" := Table(map[
      "title" := Text("Municipal Dashboard"),
      "overview" := Text("Dashboard Overview"),
      "overviewDescription" := Text("Monitor and manage citizen-reported problems across the municipality"),
      "totalProblems" := Text("Total Problems"),
      "resolved" := Text("Resolved"),
      "pending" := Text("Pending"),
      "resolutionRate" := Text("Resolution Rate"),
      "problemsOverTime" := Text("Problems Over Time"),
      "problemsByType" := Text("Problems by Type"),
      "monthlyReported" := Text("Monthly reported vs resolved problems"),
      "typeDistribution" := Text("Distribution of problem categories"),
      "recentProblems" := Text("Recent Problems"),
      "topProblemTypes" := Text("Top Problem Types"),
      "mostUpvoted" := Text("Most Upvoted Problem"),
      "highestPriority" := Text("Problem with highest community priority"),
      "recentActivity" := Text("Recent Activity"),
      "latestReports" := Text("Latest problem reports and status updates"),
      "fromLastMonth" := Text("from last month"),
      "reports" := Text("reports"),
      "votes" := Text("votes"),
      "reported" := Text("Reported")
    ]),
    "role" := Table(map[
      "municipal" := Text("Municipal Staff"),
      "ngo" := Text("NGO")
    ]),
    "status" := Table(map[
      "pending" := Text("pending"),
      "inprogress" := Text("in progress"),
      "resolved" := Text("resolved")
    ]),
    "priority" := Table(map[
      "high" := Text("high"),
      "medium" := Text("medium"),
      "low" := Text("low"),
      "priority" := Text("Priority")
    ]),
    "problemType" := Table(map[
      "potholes" := Text("Potholes"),
      "streetlights" := Text("Streetlights"),
      "garbage" := Text("Garbage"),
      "waterissues" := Text("Water Issues"),
      "other" := Text("Other")
    ])
  ])

  /** The Hindi table. */
  const Hindi: Entry := Table(map[
    "nav" := Table(map[
      "dashboard" := Text("डैशबोर्ड"),
      "mapView" := Text("मैप व्यू"),
      "problems" := Text("समस्याएं"),
      "settings" := Text("सेटिंग्स"),
      "signOut" := Text("साइन आउट")
    ]),
    "dashboard" := Table(map[
      "title" := Text("नगरपालिका डैशबोर्ड"),
      "overview" := Text("डैशबोर्ड अवलोकन"),
      "overviewDescription" := Text("नगरपालिका में नागरिकों द्वारा रिपोर्ट की गई समस्याओं की निगरानी और प्रबंधन करें"),
      "totalProblems" := Text("कुल समस्याएं"),
      "resolved" := Text("हल की गई"),
      "pending" := Text("लंबित"),
      "resolutionRate" := Text("समाधान दर"),
      "problemsOverTime" := Text("समय के साथ समस्याएं"),
      "problemsByType" := Text("प्रकार के अनुसार समस्याएं"),
      "monthlyReported" := Text("मासिक रिपोर्ट की गई बनाम हल की गई समस्याएं"),
      "typeDistribution" := Text("समस्या श्रेणियों का वितरण"),
      "recentProblems" := Text("हाल की समस्याएं"),
      "topProblemTypes" := Text("मुख्य समस्या प्रकार"),
      "mostUpvoted" := Text("सबसे अधिक वोट वाली समस्या"),
      "highestPriority" := Text("सबसे अधिक सामुदायिक प्राथमिकता वाली समस्या"),
      "recentActivity" := Text("हाल की गतिविधि"),
      "latestReports" := Text("नवीनतम समस्या रिपोर्ट और स्थिति अपडेट"),
      "fromLastMonth" := Text("पिछले महीने से"),
      "reports" := Text("रिपोर्ट"),
      "votes" := Text("वोट"),
      "reported" := Text("रिपोर्ट की गई")
    ]),
    "role" := Table(map[
      "municipal" := Text("नगरपालिका कर्मचारी"),
      "ngo" := Text("एनजीओ")
    ]),
    "status" := Table(map[
      "pending" := Text("लंबित"),
      "inprogress" := Text("प्रगति में"),
      "resolved" := Text("हल की गई")
    ]),
    "priority" := Table(map[
      "high" := Text("उच्च"),
      "medium" := Text("मध्यम"),
      "low" := Text("कम"),
      "priority" := Text("प्राथमिकता")
    ]),
    "problemType" := Table(map[
      "potholes" := Text("गड्ढे"),
      "streetlights" := Text("स्ट्रीट लाइट"),
      "garbage" := Text("कचरा"),
      "waterissues" := Text("पानी की समस्याएं"),
      "other" := Text("अन्य")
    ])
  ])

  /** The tables `t` carries: English and Hindi, no Rajasthani. */
  const Translations: map<string, Entry> := map["en" := English, "hi" := Hindi]

  /** "nav" names a table, not a string, so `t("nav")` is "nav". */
  lemma NavIsATable()
    ensures Lookup(Translations, "en", "nav") == "nav"
  {
    assert '.' !in "nav";
    assert Split("nav", '.') == ["nav"];
    assert Walk(Root(Translations, "en"), ["nav"]) == Step(Some(English), "nav");
  }

  /** The dashboard's status key splits into the table name and the entry name. */
  lemma SplitStatusKey(key: string)
    requires key == "status.inprogress"
    ensures Split(key, '.') == ["status", "inprogress"]
  {
    assert Join(["status", "inprogress"], '.') == "status" + "." + "inprogress" == key;
    SplitJoin(["status", "inprogress"], '.');
  }

  /** The English walk of the dashboard's status key ends on "in progress". */
  lemma WalkEnglishStatus()
    ensures Walk(Root(Translations, "en"), ["status", "inprogress"]) == Some(Text("in progress"))
  {
    assert Root(Translations, "en") == Some(English);
    assert Walk(Some(English), ["status", "inprogress"]) == Step(Step(Some(English), "status"), "inprogress");
  }

  /** "raj" has no nested table here and reads the English strings. */
  lemma RajReadsEnglish(language: string, key: string)
    requires language == "raj" && key == "status.inprogress"
    ensures Lookup(Translations, language, key) == "in progress"
  {
    SplitStatusKey(key);
    WalkEnglishStatus();
    AbsentLanguageIsEnglish(Translations, language, key);
  }
}

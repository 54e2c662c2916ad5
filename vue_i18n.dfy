/**
 * The SSE app's translation lookup: the current language's entry when it is non-empty, else
 * the English entry when non-empty, else the key itself. The current language is a
 * module-level value saved in local storage; on start a stored `zh-CN` or `en-US` is adopted.
 *
 * Each translation object is a table of `(key, text)` pairs in the order of its source file,
 * cut into one constant per key section (`header.`, `theme.`, ...) and joined again.
 */
module VueI18n {
  import opened Wrappers
  import opened JsString

  const DefaultLanguage: string := "zh-CN"
  const English: string := "en-US"
  /** The local-storage key the language is saved under. */
  const StorageKey: string := "language"

  /** An object literal of string properties, in source order. */
  type Table = seq<(string, string)>

  function KeysOf(t: Table): seq<string> {
    seq(|t|, i requires 0 <= i < |t| => t[i].0)
  }

  /** `table[key]`, `undefined` when absent; as in an object literal, a later definition of a
   *  key replaces an earlier one. */
  function Lookup(t: Table, key: string): (r: Option<string>)
    ensures r.Some? <==> key in KeysOf(t)
    ensures r.Some? ==> (key, r.value) in t
    decreases |t|
  {
    if t == [] then None
    else if t[|t| - 1].0 == key then (assert KeysOf(t)[|t| - 1] == key; Some(t[|t| - 1].1))
    else (assert KeysOf(t) == KeysOf(t[..|t| - 1]) + [t[|t| - 1].0]; Lookup(t[..|t| - 1], key))
  }

  predicate NonEmptyValues(t: Table) {
    forall i :: 0 <= i < |t| ==> t[i].1 != ""
  }

  /** Every key of `t` starts with `prefix`. */
  predicate KeysStartWith(t: Table, prefix: string) {
    forall i :: 0 <= i < |t| ==> StartsWith(t[i].0, prefix)
  }

  // ---------------------------------------------------------------------------------------
  // The tables

  const EnHeader: Table := [
    ("header.dashboard", "Dashboard"),
    ("header.sseChat", "SSE Chat"),
    ("header.documents", "Documents"),
    ("header.users", "Users"),
    ("header.analytics", "Analytics"),
    ("header.settings", "Settings"),
    ("header.profile", "Profile"),
    ("header.logout", "Logout"),
    ("header.theme", "Theme"),
    ("header.language", "Language"),
    ("header.demo", "Demo")
  ]

  const EnTheme: Table := [
    ("theme.light", "Light"),
    ("theme.dark", "Dark"),
    ("theme.system", "System")
  ]

  const EnLanguage: Table := [
    ("language.chinese", "Chinese"),
    ("language.english", "English")
  ]

  const EnFooter: Table := [
    ("footer.text", "SSE Application Footer")
  ]

  const EnDashboard: Table := [
    ("dashboard.title", "Dashboard"),
    ("dashboard.statistics", "Statistics"),
    ("dashboard.totalUsers", "Total Users"),
    ("dashboard.aiUsage", "AI Usage"),
    ("dashboard.requests", "Requests"),
    ("dashboard.recentActivity", "Recent Activity"),
    ("dashboard.aiModelUpdated", "AI Model Updated"),
    ("dashboard.newUserRegistered", "New User Registered"),
    ("dashboard.systemMaintenance", "System Maintenance")
  ]

  const EnSse: Table := [
    ("sse.title", "SSE Chat"),
    ("sse.enterMessage", "Enter your message..."),
    ("sse.send", "Send")
  ]

  const EnDocuments: Table := [
    ("documents.title", "Documents"),
    ("documents.noDocuments", "No documents found"),
    ("documents.createDocument", "Create Document")
  ]

  const EnUsers: Table := [
    ("users.title", "Users"),
    ("users.name", "Name"),
    ("users.email", "Email"),
    ("users.role", "Role"),
    ("users.admin", "Admin"),
    ("users.user", "User")
  ]

  const EnAnalytics: Table := [
    ("analytics.title", "Analytics"),
    ("analytics.visitors", "Visitors"),
    ("analytics.pageViews", "Page Views"),
    ("analytics.trafficSources", "Traffic Sources"),
    ("analytics.noData", "No data available")
  ]

  const EnSettings: Table := [
    ("settings.title", "Settings"),
    ("settings.username", "Username"),
    ("settings.email", "Email"),
    ("settings.theme", "Theme"),
    ("settings.notifications", "Notifications"),
    ("settings.saveSettings", "Save Settings"),
    ("settings.required", " is required"),
    ("settings.savedSuccessfully", "Settings saved successfully"),
    ("settings.validationFailed", "Validation failed")
  ]

  const EnProfile: Table := [
    ("profile.title", "User Profile"),
    ("profile.username", "Username"),
    ("profile.email", "Email"),
    ("profile.fullName", "Full Name"),
    ("profile.bio", "Bio"),
    ("profile.saveChanges", "Save Changes"),
    ("profile.required", " is required"),
    ("profile.savedSuccessfully", "Profile saved successfully"),
    ("profile.validationFailed", "Validation failed")
  ]

  const EnLogout: Table := [
    ("logout.title", "Logout"),
    ("logout.confirm", "Are you sure you want to logout?"),
    ("logout.description", "You will be redirected to the login page."),
    ("logout.cancel", "Cancel"),
    ("logout.logout", "Logout"),
    ("logout.success", "User logged out successfully")
  ]

  const EnDemo: Table := [
    ("demo.title", "Theme & Language Demo"),
    ("demo.themeDemo", "Theme Demo"),
    ("demo.toggleTheme", "Toggle Theme"),
    ("demo.currentTheme", "Current Theme"),
    ("demo.languageDemo", "Language Demo"),
    ("demo.currentLanguage", "Current Language"),
    ("demo.colorDemo", "Color Demo"),
    ("demo.primaryColor", "Primary Color"),
    ("demo.secondaryColor", "Secondary Color"),
    ("demo.accentColor", "Accent Color")
  ]


  const ZhHeader: Table := [
    ("header.dashboard", "\U{4EEA}\U{8868}\U{677F}"),
    ("header.sseChat", "SSE \U{804A}\U{5929}"),
    ("header.documents", "\U{6587}\U{6863}"),
    ("header.users", "\U{7528}\U{6237}"),
    ("header.analytics", "\U{5206}\U{6790}"),
    ("header.settings", "\U{8BBE}\U{7F6E}"),
    ("header.profile", "\U{4E2A}\U{4EBA}\U{8D44}\U{6599}"),
    ("header.logout", "\U{9000}\U{51FA}\U{767B}\U{5F55}"),
    ("header.theme", "\U{4E3B}\U{9898}"),
    ("header.language", "\U{8BED}\U{8A00}"),
    ("header.demo", "\U{6F14}\U{793A}")
  ]

  const ZhTheme: Table := [
    ("theme.light", "\U{6D45}\U{8272}"),
    ("theme.dark", "\U{6DF1}\U{8272}"),
    ("theme.system", "\U{7CFB}\U{7EDF}")
  ]

  const ZhLanguage: Table := [
    ("language.chinese", "\U{4E2D}\U{6587}"),
    ("language.english", "English")
  ]

  const ZhFooter: Table := [
    ("footer.text", "SSE \U{5E94}\U{7528}\U{7A0B}\U{5E8F}\U{9875}\U{811A}")
  ]

  const ZhDashboard: Table := [
    ("dashboard.title", "\U{4EEA}\U{8868}\U{677F}"),
    ("dashboard.statistics", "\U{7EDF}\U{8BA1}"),
    ("dashboard.totalUsers", "\U{603B}\U{7528}\U{6237}\U{6570}"),
    ("dashboard.aiUsage", "AI \U{4F7F}\U{7528}\U{91CF}"),
    ("dashboard.requests", "\U{8BF7}\U{6C42}\U{6B21}\U{6570}"),
    ("dashboard.recentActivity", "\U{6700}\U{8FD1}\U{6D3B}\U{52A8}"),
    ("dashboard.aiModelUpdated", "AI \U{6A21}\U{578B}\U{5DF2}\U{66F4}\U{65B0}"),
    ("dashboard.newUserRegistered", "\U{65B0}\U{7528}\U{6237}\U{6CE8}\U{518C}"),
    ("dashboard.systemMaintenance", "\U{7CFB}\U{7EDF}\U{7EF4}\U{62A4}")
  ]

  const ZhSse: Table := [
    ("sse.title", "SSE \U{804A}\U{5929}"),
    ("sse.enterMessage", "\U{8F93}\U{5165}\U{60A8}\U{7684}\U{6D88}\U{606F}..."),
    ("sse.send", "\U{53D1}\U{9001}")
  ]

  const ZhDocuments: Table := [
    ("documents.title", "\U{6587}\U{6863}"),
    ("documents.noDocuments", "\U{672A}\U{627E}\U{5230}\U{6587}\U{6863}"),
    ("documents.createDocument", "\U{521B}\U{5EFA}\U{6587}\U{6863}")
  ]

  const ZhUsers: Table := [
    ("users.title", "\U{7528}\U{6237}"),
    ("users.name", "\U{59D3}\U{540D}"),
    ("users.email", "\U{90AE}\U{7BB1}"),
    ("users.role", "\U{89D2}\U{8272}"),
    ("users.admin", "\U{7BA1}\U{7406}\U{5458}"),
    ("users.user", "\U{7528}\U{6237}")
  ]

  const ZhAnalytics: Table := [
    ("analytics.title", "\U{5206}\U{6790}"),
    ("analytics.visitors", "\U{8BBF}\U{5BA2}"),
    ("analytics.pageViews", "\U{9875}\U{9762}\U{6D4F}\U{89C8}\U{91CF}"),
    ("analytics.trafficSources", "\U{6D41}\U{91CF}\U{6765}\U{6E90}"),
    ("analytics.noData", "\U{6682}\U{65E0}\U{6570}\U{636E}")
  ]

  const ZhSettings: Table := [
    ("settings.title", "\U{8BBE}\U{7F6E}"),
    ("settings.username", "\U{7528}\U{6237}\U{540D}"),
    ("settings.email", "\U{90AE}\U{7BB1}"),
    ("settings.theme", "\U{4E3B}\U{9898}"),
    ("settings.notifications", "\U{901A}\U{77E5}"),
    ("settings.saveSettings", "\U{4FDD}\U{5B58}\U{8BBE}\U{7F6E}"),
    ("settings.required", " \U{4E3A}\U{5FC5}\U{586B}\U{9879}"),
    ("settings.savedSuccessfully", "\U{8BBE}\U{7F6E}\U{4FDD}\U{5B58}\U{6210}\U{529F}"),
    ("settings.validationFailed", "\U{9A8C}\U{8BC1}\U{5931}\U{8D25}")
  ]

  const ZhProfile: Table := [
    ("profile.title", "\U{7528}\U{6237}\U{8D44}\U{6599}"),
    ("profile.username", "\U{7528}\U{6237}\U{540D}"),
    ("profile.email", "\U{90AE}\U{7BB1}"),
    ("profile.fullName", "\U{5168}\U{540D}"),
    ("profile.bio", "\U{4E2A}\U{4EBA}\U{7B80}\U{4ECB}"),
    ("profile.saveChanges", "\U{4FDD}\U{5B58}\U{66F4}\U{6539}"),
    ("profile.required", " \U{4E3A}\U{5FC5}\U{586B}\U{9879}"),
    ("profile.savedSuccessfully", "\U{4E2A}\U{4EBA}\U{8D44}\U{6599}\U{4FDD}\U{5B58}\U{6210}\U{529F}"),
    ("profile.validationFailed", "\U{9A8C}\U{8BC1}\U{5931}\U{8D25}")
  ]

  const ZhLogout: Table := [
    ("logout.title", "\U{9000}\U{51FA}\U{767B}\U{5F55}"),
    ("logout.confirm", "\U{60A8}\U{786E}\U{5B9A}\U{8981}\U{9000}\U{51FA}\U{767B}\U{5F55}\U{5417}\U{FF1F}"),
    ("logout.description", "\U{60A8}\U{5C06}\U{88AB}\U{91CD}\U{5B9A}\U{5411}\U{5230}\U{767B}\U{5F55}\U{9875}\U{9762}\U{3002}"),
    ("logout.cancel", "\U{53D6}\U{6D88}"),
    ("logout.logout", "\U{9000}\U{51FA}\U{767B}\U{5F55}"),
    ("logout.success", "\U{7528}\U{6237}\U{6210}\U{529F}\U{9000}\U{51FA}\U{767B}\U{5F55}")
  ]

  const ZhDemo: Table := [
    ("demo.title", "\U{4E3B}\U{9898}\U{4E0E}\U{8BED}\U{8A00}\U{6F14}\U{793A}"),
    ("demo.themeDemo", "\U{4E3B}\U{9898}\U{6F14}\U{793A}"),
    ("demo.toggleTheme", "\U{5207}\U{6362}\U{4E3B}\U{9898}"),
    ("demo.currentTheme", "\U{5F53}\U{524D}\U{4E3B}\U{9898}"),
    ("demo.languageDemo", "\U{8BED}\U{8A00}\U{6F14}\U{793A}"),
    ("demo.currentLanguage", "\U{5F53}\U{524D}\U{8BED}\U{8A00}"),
    ("demo.colorDemo", "\U{989C}\U{8272}\U{6F14}\U{793A}"),
    ("demo.primaryColor", "\U{4E3B}\U{8981}\U{989C}\U{8272}"),
    ("demo.secondaryColor", "\U{6B21}\U{8981}\U{989C}\U{8272}"),
    ("demo.accentColor", "\U{5F3A}\U{8C03}\U{989C}\U{8272}")
  ]

  /** The sections after `language.`. */
  const EnLater: Table :=
    EnFooter + EnDashboard + EnSse + EnDocuments + EnUsers + EnAnalytics + EnSettings + EnProfile
    + EnLogout + EnDemo
  const ZhLater: Table :=
    ZhFooter + ZhDashboard + ZhSse + ZhDocuments + ZhUsers + ZhAnalytics + ZhSettings + ZhProfile
    + ZhLogout + ZhDemo

  /** The English table. */
  const EnUs: Table := EnHeader + EnTheme + EnLanguage + EnLater
  /** The Chinese table. */
  const ZhCn: Table := ZhHeader + ZhTheme + ZhLanguage + ZhLater

  /** The translations object: one table per supported language. */
  function Translations(language: string): (r: Option<Table>)
    ensures r.Some? <==> language == English || language == DefaultLanguage
  {
    if language == English then Some(EnUs)
    else if language == DefaultLanguage then Some(ZhCn)
    else None
  }

  /** `t(key)` with the given current language. */
  function T(language: string, key: string): (r: string)
    ensures r == key || Lookup(EnUs, key) == Some(r)
            || (Translations(language).Some? && Lookup(Translations(language).value, key) == Some(r))
    ensures key != "" ==> r != ""
  {
    var translation := Translations(language);
    if translation.Some? && Truthy(Lookup(translation.value, key)) then Lookup(translation.value, key).value
    else if Truthy(Lookup(EnUs, key)) then Lookup(EnUs, key).value
    else key
  }

  /** The start-up rule: a stored language is adopted only if it is one of the two tables. */
  function InitialLanguage(current: string, stored: Option<string>): (r: string)
    ensures r == current || r == English || r == DefaultLanguage
    ensures stored == Some(English) ==> r == English
    ensures stored == Some(DefaultLanguage) ==> r == DefaultLanguage
  {
    if Truthy(stored) && (stored.value == DefaultLanguage || stored.value == English) then stored.value
    else current
  }

  /** The module's state: the current language and local storage. */
  class I18n {
    var currentLanguage: string
    var storedLanguage: Option<string>

    constructor (stored: Option<string>)
      ensures currentLanguage == DefaultLanguage && storedLanguage == stored
    {
      currentLanguage := DefaultLanguage;
      storedLanguage := stored;
    }

    /** `setLanguage`: any string is accepted and saved. */
    method SetLanguage(language: string)
      modifies this
      ensures currentLanguage == language && storedLanguage == Some(language)
    {
      currentLanguage := language;
      storedLanguage := Some(language);
    }

    /** `initLanguage`. */
    method InitLanguage()
      modifies this
      ensures currentLanguage == InitialLanguage(old(currentLanguage), old(storedLanguage))
      ensures storedLanguage == old(storedLanguage)
    {
      var saved := storedLanguage;
      if saved.Some? && saved.value != "" && (saved.value == DefaultLanguage || saved.value == English) {
        currentLanguage := saved.value;
      }
    }

    /** `t`, reading the current language. */
    method Translate(key: string) returns (r: string)
      ensures r == T(currentLanguage, key)
    {
      var translation := Translations(currentLanguage);
      if translation.Some? {
        var entry := Lookup(translation.value, key);
        if entry.Some? && entry.value != "" {
          return entry.value;
        }
      }
      var english := Lookup(EnUs, key);
      if english.Some? && english.value != "" {
        return english.value;
      }
      return key;
    }
  }

  // ---------------------------------------------------------------------------------------
  // Lookup in joined tables

  lemma KeysOfConcat(a: Table, b: Table)
    ensures KeysOf(a + b) == KeysOf(a) + KeysOf(b)
  {
  }

  /** A key defined in the later table is read there; otherwise the earlier table decides. */
  lemma {:induction false} LookupConcat(a: Table, b: Table, key: string)
    ensures Lookup(a + b, key) == if key in KeysOf(b) then Lookup(b, key) else Lookup(a, key)
    decreases |b|
  {
    if b != [] {
      var u := a + b;
      assert u[..|u| - 1] == a + b[..|b| - 1];
      assert KeysOf(b) == KeysOf(b[..|b| - 1]) + [b[|b| - 1].0];
      LookupConcat(a, b[..|b| - 1], key);
    } else {
      assert a + b == a;
    }
  }

  /** A key that does not carry a table's prefix is not in it. */
  lemma AbsentWithoutPrefix(t: Table, prefix: string, key: string)
    requires KeysStartWith(t, prefix) && !StartsWith(key, prefix)
    ensures key !in KeysOf(t)
  {
  }

  // ---------------------------------------------------------------------------------------
  // Properties

  lemma HeaderKeysAgree()
    ensures KeysOf(EnHeader) == KeysOf(ZhHeader) && KeysOf(EnTheme) == KeysOf(ZhTheme)
    ensures KeysOf(EnLanguage) == KeysOf(ZhLanguage) && KeysOf(EnFooter) == KeysOf(ZhFooter)
  {
  }

  lemma MiddleKeysAgree()
    ensures KeysOf(EnDashboard) == KeysOf(ZhDashboard) && KeysOf(EnSse) == KeysOf(ZhSse)
    ensures KeysOf(EnDocuments) == KeysOf(ZhDocuments) && KeysOf(EnUsers) == KeysOf(ZhUsers)
    ensures KeysOf(EnAnalytics) == KeysOf(ZhAnalytics)
  {
  }

  lemma LastKeysAgree()
    ensures KeysOf(EnSettings) == KeysOf(ZhSettings) && KeysOf(EnProfile) == KeysOf(ZhProfile)
    ensures KeysOf(EnLogout) == KeysOf(ZhLogout) && KeysOf(EnDemo) == KeysOf(ZhDemo)
  {
  }

  /** The later sections hold the same keys in the same order in both tables. */
  lemma LaterKeysAgree()
    ensures KeysOf(EnLater) == KeysOf(ZhLater)
  {
    HeaderKeysAgree();
    MiddleKeysAgree();
    LastKeysAgree();
    ConcatKeysAgree(EnFooter, EnDashboard, ZhFooter, ZhDashboard);
    var e, z := EnFooter + EnDashboard, ZhFooter + ZhDashboard;
    ConcatKeysAgree(e, EnSse, z, ZhSse);
    e, z := e + EnSse, z + ZhSse;
    ConcatKeysAgree(e, EnDocuments, z, ZhDocuments);
    e, z := e + EnDocuments, z + ZhDocuments;
    ConcatKeysAgree(e, EnUsers, z, ZhUsers);
    e, z := e + EnUsers, z + ZhUsers;
    ConcatKeysAgree(e, EnAnalytics, z, ZhAnalytics);
    e, z := e + EnAnalytics, z + ZhAnalytics;
    ConcatKeysAgree(e, EnSettings, z, ZhSettings);
    e, z := e + EnSettings, z + ZhSettings;
    ConcatKeysAgree(e, EnProfile, z, ZhProfile);
    e, z := e + EnProfile, z + ZhProfile;
    ConcatKeysAgree(e, EnLogout, z, ZhLogout);
    e, z := e + EnLogout, z + ZhLogout;
    ConcatKeysAgree(e, EnDemo, z, ZhDemo);
  }

  /** Tables with the same keys, joined, have the same keys. */
  lemma ConcatKeysAgree(a: Table, b: Table, c: Table, d: Table)
    requires KeysOf(a) == KeysOf(c) && KeysOf(b) == KeysOf(d)
    ensures KeysOf(a + b) == KeysOf(c + d)
  {
    KeysOfConcat(a, b);
    KeysOfConcat(c, d);
  }

  /** Both tables define the same keys in the same order (so `Object.keys` agree). */
  lemma SameKeyOrder()
    ensures KeysOf(EnUs) == KeysOf(ZhCn)
  {
    HeaderKeysAgree();
    LaterKeysAgree();
    KeysOfConcat(EnHeader, EnTheme);
    KeysOfConcat(ZhHeader, ZhTheme);
    KeysOfConcat(EnHeader + EnTheme, EnLanguage);
    KeysOfConcat(ZhHeader + ZhTheme, ZhLanguage);
    KeysOfConcat(EnHeader + EnTheme + EnLanguage, EnLater);
    KeysOfConcat(ZhHeader + ZhTheme + ZhLanguage, ZhLater);
  }

  /** Both tables translate exactly the same keys. */
  lemma SameKeys(key: string)
    ensures |EnUs| == |ZhCn|
    ensures Lookup(EnUs, key).Some? <==> Lookup(ZhCn, key).Some?
  {
    SameKeyOrder();
    assert |KeysOf(EnUs)| == |KeysOf(ZhCn)|;
  }

  lemma EarlyValuesNonEmpty()
    ensures NonEmptyValues(EnHeader) && NonEmptyValues(ZhHeader)
    ensures NonEmptyValues(EnTheme) && NonEmptyValues(ZhTheme)
    ensures NonEmptyValues(EnLanguage) && NonEmptyValues(ZhLanguage)
    ensures NonEmptyValues(EnFooter) && NonEmptyValues(ZhFooter)
    ensures NonEmptyValues(EnDashboard) && NonEmptyValues(ZhDashboard)
    ensures NonEmptyValues(EnSse) && NonEmptyValues(ZhSse)
  {
  }

  lemma LateValuesNonEmpty()
    ensures NonEmptyValues(EnDocuments) && NonEmptyValues(ZhDocuments)
    ensures NonEmptyValues(EnUsers) && NonEmptyValues(ZhUsers)
    ensures NonEmptyValues(EnAnalytics) && NonEmptyValues(ZhAnalytics)
    ensures NonEmptyValues(EnSettings) && NonEmptyValues(ZhSettings)
    ensures NonEmptyValues(EnProfile) && NonEmptyValues(ZhProfile)
    ensures NonEmptyValues(EnLogout) && NonEmptyValues(ZhLogout)
    ensures NonEmptyValues(EnDemo) && NonEmptyValues(ZhDemo)
  {
  }

  lemma NonEmptyConcat(a: Table, b: Table)
    requires NonEmptyValues(a) && NonEmptyValues(b)
    ensures NonEmptyValues(a + b)
  {
  }

  /** No text of either table is empty, so every key they define is translated by them. */
  lemma NoEmptyEntries(key: string)
    ensures Lookup(EnUs, key) != Some("") && Lookup(ZhCn, key) != Some("")
  {
    EarlyValuesNonEmpty();
    LateValuesNonEmpty();
    assert NonEmptyValues(EnLater) && NonEmptyValues(ZhLater);
    assert NonEmptyValues(EnUs) && NonEmptyValues(ZhCn);
  }

  /** The current language's entry comes first when it is non-empty. */
  lemma CurrentLanguageFirst(language: string, key: string, text: string)
    requires Translations(language).Some? && Lookup(Translations(language).value, key) == Some(text)
    requires text != ""
    ensures T(language, key) == text
  {
  }

  /** Otherwise the English entry, when non-empty; otherwise the key itself. */
  lemma FallbackOrder(language: string, key: string)
    requires !(Translations(language).Some? && Truthy(Lookup(Translations(language).value, key)))
    ensures Truthy(Lookup(EnUs, key)) ==> T(language, key) == Lookup(EnUs, key).value
    ensures !Truthy(Lookup(EnUs, key)) ==> T(language, key) == key
  {
  }

  /** A language without a table reads the English table, then the key. */
  lemma UnknownLanguageIsEnglish(language: string, key: string)
    requires language != English && language != DefaultLanguage
    ensures T(language, key) == T(English, key)
    ensures T(language, key) == if Lookup(EnUs, key).Some? then Lookup(EnUs, key).value else key
  {
    NoEmptyEntries(key);
  }

  /** In either supported language a key of the tables is translated by that language's table,
   *  and any other key is its own translation. */
  lemma SupportedLanguageLookup(language: string, key: string)
    requires language == English || language == DefaultLanguage
    ensures Lookup(EnUs, key).Some? ==> Lookup(Translations(language).value, key).Some?
    ensures Lookup(EnUs, key).Some? ==> T(language, key) == Lookup(Translations(language).value, key).value
    ensures Lookup(EnUs, key).None? ==> T(language, key) == key
  {
    SameKeys(key);
    NoEmptyEntries(key);
  }

  /** No key of `t` begins with `c0` followed by `c1`. */
  predicate KeysAvoid(t: Table, c0: char, c1: char) {
    forall i :: 0 <= i < |t| ==> |t[i].0| >= 2 && (t[i].0[0] != c0 || t[i].0[1] != c1)
  }

  lemma FooterDashboardAvoid(c0: char, c1: char)
    requires (c0 == 't' && c1 == 'h') || (c0 == 'l' && c1 == 'a')
    ensures KeysAvoid(EnFooter, c0, c1) && KeysAvoid(EnDashboard, c0, c1)
  {
  }

  lemma SseDocumentsAvoid(c0: char, c1: char)
    requires (c0 == 't' && c1 == 'h') || (c0 == 'l' && c1 == 'a')
    ensures KeysAvoid(EnSse, c0, c1) && KeysAvoid(EnDocuments, c0, c1)
  {
  }

  lemma UsersAnalyticsAvoid(c0: char, c1: char)
    requires (c0 == 't' && c1 == 'h') || (c0 == 'l' && c1 == 'a')
    ensures KeysAvoid(EnUsers, c0, c1) && KeysAvoid(EnAnalytics, c0, c1)
  {
  }

  lemma SettingsProfileAvoid(c0: char, c1: char)
    requires (c0 == 't' && c1 == 'h') || (c0 == 'l' && c1 == 'a')
    ensures KeysAvoid(EnSettings, c0, c1) && KeysAvoid(EnProfile, c0, c1)
  {
  }

  lemma LogoutDemoAvoid(c0: char, c1: char)
    requires (c0 == 't' && c1 == 'h') || (c0 == 'l' && c1 == 'a')
    ensures KeysAvoid(EnLogout, c0, c1) && KeysAvoid(EnDemo, c0, c1)
  {
  }

  /** Joined tables avoid what each part avoids. */
  lemma AvoidConcat(a: Table, b: Table, c0: char, c1: char)
    requires KeysAvoid(a, c0, c1) && KeysAvoid(b, c0, c1)
    ensures KeysAvoid(a + b, c0, c1)
  {
    forall i | 0 <= i < |a + b| ensures (a + b)[i] == if i < |a| then a[i] else b[i - |a|] {
    }
  }

  /** A key beginning with `c0` followed by `c1` is not a key of a table that avoids them. */
  lemma AvoidMeansAbsent(t: Table, key: string)
    requires |key| >= 2 && KeysAvoid(t, key[0], key[1])
    ensures key !in KeysOf(t)
  {
  }

  /** No `th...` or `la...` key, so no `theme.` or `language.` key, is defined after the
   *  `language.` section. */
  lemma NotInLaterSections(key: string)
    requires |key| >= 2 && ((key[0] == 't' && key[1] == 'h') || (key[0] == 'l' && key[1] == 'a'))
    ensures key !in KeysOf(EnLater) && key !in KeysOf(ZhLater)
  {
    var c0, c1 := key[0], key[1];
    FooterDashboardAvoid(c0, c1);
    SseDocumentsAvoid(c0, c1);
    UsersAnalyticsAvoid(c0, c1);
    SettingsProfileAvoid(c0, c1);
    LogoutDemoAvoid(c0, c1);
    var e := EnFooter;
    AvoidConcat(e, EnDashboard, c0, c1);
    e := e + EnDashboard;
    AvoidConcat(e, EnSse, c0, c1);
    e := e + EnSse;
    AvoidConcat(e, EnDocuments, c0, c1);
    e := e + EnDocuments;
    AvoidConcat(e, EnUsers, c0, c1);
    e := e + EnUsers;
    AvoidConcat(e, EnAnalytics, c0, c1);
    e := e + EnAnalytics;
    AvoidConcat(e, EnSettings, c0, c1);
    e := e + EnSettings;
    AvoidConcat(e, EnProfile, c0, c1);
    e := e + EnProfile;
    AvoidConcat(e, EnLogout, c0, c1);
    e := e + EnLogout;
    AvoidConcat(e, EnDemo, c0, c1);
    AvoidMeansAbsent(EnLater, key);
    LaterKeysAgree();
  }

  lemma ThemeAndLanguageKeysAgree()
    ensures KeysOf(EnTheme) == KeysOf(ZhTheme) && KeysOf(EnLanguage) == KeysOf(ZhLanguage)
  {
  }

  /** A `theme.` or `language.` key of the English table is read from the section that
   *  defines it. */
  lemma EarlyLookupEn(key: string)
    requires key !in KeysOf(EnLater)
    ensures key in KeysOf(EnLanguage) ==> Lookup(EnUs, key) == Lookup(EnLanguage, key)
    ensures key !in KeysOf(EnLanguage) && key in KeysOf(EnTheme) ==> Lookup(EnUs, key) == Lookup(EnTheme, key)
  {
    LookupConcat(EnHeader + EnTheme + EnLanguage, EnLater, key);
    LookupConcat(EnHeader + EnTheme, EnLanguage, key);
    LookupConcat(EnHeader, EnTheme, key);
  }

  lemma EarlyLookupZh(key: string)
    requires key !in KeysOf(ZhLater)
    ensures key in KeysOf(ZhLanguage) ==> Lookup(ZhCn, key) == Lookup(ZhLanguage, key)
    ensures key !in KeysOf(ZhLanguage) && key in KeysOf(ZhTheme) ==> Lookup(ZhCn, key) == Lookup(ZhTheme, key)
  {
    LookupConcat(ZhHeader + ZhTheme + ZhLanguage, ZhLater, key);
    LookupConcat(ZhHeader + ZhTheme, ZhLanguage, key);
    LookupConcat(ZhHeader, ZhTheme, key);
  }

  lemma EarlyLookup(key: string)
    requires key !in KeysOf(EnLater) && key !in KeysOf(ZhLater)
    ensures key in KeysOf(EnLanguage) ==>
              Lookup(EnUs, key) == Lookup(EnLanguage, key) && Lookup(ZhCn, key) == Lookup(ZhLanguage, key)
    ensures key !in KeysOf(EnLanguage) && key in KeysOf(EnTheme) ==>
              Lookup(EnUs, key) == Lookup(EnTheme, key) && Lookup(ZhCn, key) == Lookup(ZhTheme, key)
  {
    ThemeAndLanguageKeysAgree();
    EarlyLookupEn(key);
    EarlyLookupZh(key);
  }

  /** The theme names in both languages. */
  lemma ThemeNames(light: string, dark: string)
    requires light == "theme.light" && dark == "theme.dark"
    ensures T(English, light) == "Light" && T(English, dark) == "Dark"
    ensures T(DefaultLanguage, light) == "\U{6D45}\U{8272}"
    ensures T(DefaultLanguage, dark) == "\U{6DF1}\U{8272}"
  {
    EnglishThemeName(light, "Light");
    EnglishThemeName(dark, "Dark");
    ChineseThemeName(light, "\U{6D45}\U{8272}");
    ChineseThemeName(dark, "\U{6DF1}\U{8272}");
  }

  lemma EnglishThemeName(key: string, text: string)
    requires (key == "theme.light" && text == "Light") || (key == "theme.dark" && text == "Dark")
    ensures T(English, key) == text
  {
    assert key[0] == 't' && key[1] == 'h';
    NotInLaterSections(key);
    EnThemeEntry(key, text);
    EarlyLookupEn(key);
  }

  lemma EnThemeEntry(key: string, text: string)
    requires (key == "theme.light" && text == "Light") || (key == "theme.dark" && text == "Dark")
    ensures key !in KeysOf(EnLanguage) && key in KeysOf(EnTheme) && Lookup(EnTheme, key) == Some(text)
  {
    assert KeysOf(EnLanguage) == ["language.chinese", "language.english"];
    assert KeysOf(EnTheme) == ["theme.light", "theme.dark", "theme.system"];
    assert Lookup(EnTheme, "theme.light") == Some("Light") && Lookup(EnTheme, "theme.dark") == Some("Dark");
  }

  lemma ChineseThemeName(key: string, text: string)
    requires (key == "theme.light" && text == "\U{6D45}\U{8272}")
          || (key == "theme.dark" && text == "\U{6DF1}\U{8272}")
    ensures T(DefaultLanguage, key) == text
  {
    assert key[0] == 't' && key[1] == 'h';
    NotInLaterSections(key);
    ZhThemeEntry(key, text);
    EarlyLookupZh(key);
  }

  lemma ZhThemeEntry(key: string, text: string)
    requires (key == "theme.light" && text == "\U{6D45}\U{8272}")
          || (key == "theme.dark" && text == "\U{6DF1}\U{8272}")
    ensures key !in KeysOf(ZhLanguage) && key in KeysOf(ZhTheme) && Lookup(ZhTheme, key) == Some(text)
  {
    assert KeysOf(ZhLanguage) == ["language.chinese", "language.english"];
    assert KeysOf(ZhTheme) == ["theme.light", "theme.dark", "theme.system"];
    assert Lookup(ZhTheme, "theme.light") == Some("\U{6D45}\U{8272}");
    assert Lookup(ZhTheme, "theme.dark") == Some("\U{6DF1}\U{8272}");
  }

  /** The English table names Chinese in English. */
  lemma LanguageNames(chinese: string, english: string)
    requires chinese == "language.chinese" && english == "language.english"
    ensures T(English, chinese) == "Chinese"
    ensures T(DefaultLanguage, chinese) == "\U{4E2D}\U{6587}"
    ensures T(English, english) == "English" && T(DefaultLanguage, english) == "English"
  {
    EnglishLanguageName(chinese, "Chinese");
    EnglishLanguageName(english, "English");
    ChineseLanguageName(chinese, "\U{4E2D}\U{6587}");
    ChineseLanguageName(english, "English");
  }

  lemma EnglishLanguageName(key: string, text: string)
    requires (key == "language.chinese" && text == "Chinese")
          || (key == "language.english" && text == "English")
    ensures T(English, key) == text
  {
    assert key[0] == 'l' && key[1] == 'a';
    NotInLaterSections(key);
    EnLanguageEntry(key, text);
    EarlyLookupEn(key);
  }

  lemma EnLanguageEntry(key: string, text: string)
    requires (key == "language.chinese" && text == "Chinese")
          || (key == "language.english" && text == "English")
    ensures key in KeysOf(EnLanguage) && Lookup(EnLanguage, key) == Some(text)
  {
    assert KeysOf(EnLanguage) == ["language.chinese", "language.english"];
    assert Lookup(EnLanguage, "language.chinese") == Some("Chinese");
    assert Lookup(EnLanguage, "language.english") == Some("English");
  }

  lemma ChineseLanguageName(key: string, text: string)
    requires (key == "language.chinese" && text == "\U{4E2D}\U{6587}")
          || (key == "language.english" && text == "English")
    ensures T(DefaultLanguage, key) == text
  {
    assert key[0] == 'l' && key[1] == 'a';
    NotInLaterSections(key);
    ZhLanguageEntry(key, text);
    EarlyLookupZh(key);
  }

  lemma ZhLanguageEntry(key: string, text: string)
    requires (key == "language.chinese" && text == "\U{4E2D}\U{6587}")
          || (key == "language.english" && text == "English")
    ensures key in KeysOf(ZhLanguage) && Lookup(ZhLanguage, key) == Some(text)
  {
    assert KeysOf(ZhLanguage) == ["language.chinese", "language.english"];
    assert Lookup(ZhLanguage, "language.chinese") == Some("\U{4E2D}\U{6587}");
    assert Lookup(ZhLanguage, "language.english") == Some("English");
  }

  /** Start-up keeps the current language unless a supported one was stored. */
  lemma InitIgnoresUnsupported(current: string, stored: string)
    requires stored != English && stored != DefaultLanguage
    ensures InitialLanguage(current, Some(stored)) == current
    ensures InitialLanguage(current, None) == current
  {
  }
}

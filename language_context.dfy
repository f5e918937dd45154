/** The two translation tables and the lookup `t`: the current language's entry for a key,
    or the key itself when the entry is missing or empty. Each table is written, like the
    object literal it models, as its list of entries; the object is the map those entries
    build, a later entry overriding an earlier one with the same key. */
module LanguageContext {

  datatype Language = En | Ta

  type Entries = seq<(string, string)>

  const EnglishCommon: Entries := [
    ("app.name", "ThamizhTravels"),
    ("app.tagline", "Your Travel Companion"),
    ("login", "Login"),
    ("logout", "Logout"),
    ("dashboard", "Dashboard"),
    ("profile", "Profile"),
    ("settings", "Settings"),
    ("search", "Search"),
    ("filter", "Filter"),
    ("save", "Save"),
    ("cancel", "Cancel"),
    ("submit", "Submit"),
    ("loading", "Loading..."),
    ("error", "Something went wrong"),
    ("success", "Success")
  ]

  const EnglishAuth: Entries := [
    ("admin.login", "Admin Login"),
    ("driver.login", "Driver Login"),
    ("user.login", "User Login"),
    ("email", "Email"),
    ("password", "Password"),
    ("signin", "Sign In"),
    ("welcome.back", "Welcome Back")
  ]

  const EnglishDashboard: Entries := [
    ("manage.users", "Manage Users"),
    ("manage.drivers", "Manage Drivers"),
    ("trip.history", "Trip History"),
    ("new.requests", "New Requests"),
    ("book.ride", "Book a Ride"),
    ("my.bookings", "My Bookings")
  ]

  const EnglishForms: Entries := [
    ("name", "Name"),
    ("phone", "Phone Number"),
    ("address", "Address"),
    ("license.no", "License Number"),
    ("vehicle.type", "Vehicle Type"),
    ("vehicle.no", "Vehicle Number")
  ]

  const EnglishBooking: Entries := [
    ("pickup.location", "Pickup Location"),
    ("drop.location", "Drop Location"),
    ("vehicle.preference", "Vehicle Preference"),
    ("payment.method", "Payment Method"),
    ("schedule.ride", "Schedule Ride"),
    ("book.now", "Book Now")
  ]

  const EnglishPayment: Entries := [
    ("credit.card", "Credit/Debit Card"),
    ("upi", "UPI"),
    ("cash", "Cash on Delivery")
  ]

  const EnglishEntries: Entries :=
    EnglishCommon + EnglishAuth + EnglishDashboard + EnglishForms + EnglishBooking + EnglishPayment

  const TamilCommon: Entries := [
    ("app.name", "தமிழ் டிராவல்ஸ்"),
    ("app.tagline", "உங்கள் பயண துணை"),
    ("login", "உள்நுழைவு"),
    ("logout", "வெளியேறு"),
    ("dashboard", "முகப்பு"),
    ("profile", "சுயவிவரம்"),
    ("settings", "அமைப்புகள்"),
    ("search", "தேடல்"),
    ("filter", "வடிகட்டி"),
    ("save", "சேமி"),
    ("cancel", "ரத்து"),
    ("submit", "சமர்ப்பிக்கவும்"),
    ("loading", "ஏற்றுகிறது..."),
    ("error", "ஏதோ தவறு நடந்துள்ளது"),
    ("success", "வெற்றி")
  ]

  const TamilAuth: Entries := [
    ("admin.login", "நிர்வாக உள்நுழைவு"),
    ("driver.login", "ஓட்டுநர் உள்நுழைவு"),
    ("user.login", "பயனர் உள்நுழைவு"),
    ("email", "மின்னஞ்சல்"),
    ("password", "கடவுச்சொல்"),
    ("signin", "உள்நுழைய"),
    ("welcome.back", "மீண்டும் வரவேற்கிறோம்")
  ]

  const TamilDashboard: Entries := [
    ("manage.users", "பயனர்களை நிர்வகிக்கவும்"),
    ("manage.drivers", "ஓட்டுநர்களை நிர்வகிக்கவும்"),
    ("trip.history", "பயண வரலாறு"),
    ("new.requests", "புதிய கோரிக்கைகள்"),
    ("book.ride", "சவாரி முன்பதிவு"),
    ("my.bookings", "என் முன்பதிவுகள்")
  ]

  const TamilForms: Entries := [
    ("name", "பெயர்"),
    ("phone", "தொலைபேசி எண்"),
    ("address", "முகவரி"),
    ("license.no", "உரிம எண்"),
    ("vehicle.type", "வாகன வகை"),
    ("vehicle.no", "வாகன எண்")
  ]

  const TamilBooking: Entries := [
    ("pickup.location", "ஏறும் இடம்"),
    ("drop.location", "இறங்கும் இடம்"),
    ("vehicle.preference", "வாகன விருப்பம்"),
    ("payment.method", "பணம் செலுத்தும் முறை"),
    ("schedule.ride", "சவாரி திட்டமிடுங்கள்"),
    ("book.now", "இப்போது முன்பதிவு செய்யுங்கள்")
  ]

  const TamilPayment: Entries := [
    ("credit.card", "கிரெடிட்/டெபிட் கார்ட்"),
    ("upi", "யூபிஐ"),
    ("cash", "டெலிவரியில் பணம்")
  ]

  const TamilEntries: Entries :=
    TamilCommon + TamilAuth + TamilDashboard + TamilForms + TamilBooking + TamilPayment

  /** The object an object literal with these properties builds. */
  function TableOf(es: Entries): map<string, string>
    decreases |es|
  {
    if es == [] then map[] else TableOf(es[..|es| - 1])[es[|es| - 1].0 := es[|es| - 1].1]
  }

  function Table(lang: Language): map<string, string> {
    match lang
    case En => TableOf(EnglishEntries)
    case Ta => TableOf(TamilEntries)
  }

  /** `translations[language][key] || key` */
  function T(lang: Language, key: string): (r: string)
    ensures key !in Table(lang) ==> r == key
    ensures key in Table(lang) && Table(lang)[key] != "" ==> r == Table(lang)[key]
  {
    if key in Table(lang) && Table(lang)[key] != "" then Table(lang)[key] else key
  }

  // ---- what the entry lists say about the objects ----

  ghost predicate NoEmptyValue(es: Entries) {
    forall i :: 0 <= i < |es| ==> es[i].1 != ""
  }

  ghost predicate Lacks(es: Entries, key: string) {
    forall i :: 0 <= i < |es| ==> es[i].0 != key
  }

  ghost predicate SameKeyColumn(a: Entries, b: Entries) {
    |a| == |b| && forall i :: 0 <= i < |a| ==> a[i].0 == b[i].0
  }

  /** A key is in the object exactly when some entry names it, and its value is one of the
      values written for it. */
  lemma {:induction false} TableOfEntries(es: Entries, key: string)
    ensures key in TableOf(es) <==> !Lacks(es, key)
    ensures key in TableOf(es) ==> exists i :: 0 <= i < |es| && es[i] == (key, TableOf(es)[key])
    decreases |es|
  {
    if es != [] {
      var init := es[..|es| - 1];
      TableOfEntries(init, key);
      if key in TableOf(init) && key != es[|es| - 1].0 {
        var i :| 0 <= i < |init| && init[i] == (key, TableOf(init)[key]);
        assert es[i] == init[i];
      }
      if !Lacks(es, key) && key != es[|es| - 1].0 {
        var i :| 0 <= i < |es| && es[i].0 == key;
        assert init[i] == es[i];
      }
    }
  }

  lemma {:induction false} SameKeyColumnSameKeys(a: Entries, b: Entries)
    requires SameKeyColumn(a, b)
    ensures TableOf(a).Keys == TableOf(b).Keys
    decreases |a|
  {
    if a != [] {
      var n := |a| - 1;
      assert SameKeyColumn(a[..n], b[..n]);
      SameKeyColumnSameKeys(a[..n], b[..n]);
    }
  }

  /** What the tables' entries are checked for: no empty value, and none of the keys the
      sign-in form asks for. */
  ghost predicate SectionFacts(es: Entries) {
    && NoEmptyValue(es)
    && Lacks(es, "signup") && Lacks(es, "fullName") && Lacks(es, "confirmPassword")
    && Lacks(es, "backToLogin") && Lacks(es, "register")
  }

  lemma AppendFacts(a: Entries, b: Entries, c: Entries, e: Entries)
    requires SectionFacts(a) && SectionFacts(b) && SectionFacts(c) && SectionFacts(e)
    requires SameKeyColumn(a, c) && SameKeyColumn(b, e)
    ensures SectionFacts(a + b) && SectionFacts(c + e) && SameKeyColumn(a + b, c + e)
  {
    assert forall i :: 0 <= i < |a| ==> (a + b)[i] == a[i] && (c + e)[i] == c[i];
    assert forall i :: |a| <= i < |a + b| ==> (a + b)[i] == b[i - |a|] && (c + e)[i] == e[i - |a|];
  }

  lemma CommonSectionEnglish()
    ensures SectionFacts(EnglishCommon)
  {
  }

  lemma CommonSectionTamil()
    ensures SectionFacts(TamilCommon)
  {
  }

  lemma CommonSectionKeys()
    ensures SameKeyColumn(EnglishCommon, TamilCommon)
  {
  }

  lemma AuthSectionEnglish()
    ensures SectionFacts(EnglishAuth)
  {
  }

  lemma AuthSectionTamil()
    ensures SectionFacts(TamilAuth)
  {
  }

  lemma AuthSectionKeys()
    ensures SameKeyColumn(EnglishAuth, TamilAuth)
  {
  }

  lemma DashboardSectionEnglish()
    ensures SectionFacts(EnglishDashboard)
  {
  }

  lemma DashboardSectionTamil()
    ensures SectionFacts(TamilDashboard)
  {
  }

  lemma DashboardSectionKeys()
    ensures SameKeyColumn(EnglishDashboard, TamilDashboard)
  {
  }

  lemma FormsSectionEnglish()
    ensures SectionFacts(EnglishForms)
  {
  }

  lemma FormsSectionTamil()
    ensures SectionFacts(TamilForms)
  {
  }

  lemma FormsSectionKeys()
    ensures SameKeyColumn(EnglishForms, TamilForms)
  {
  }

  lemma BookingSectionEnglish()
    ensures SectionFacts(EnglishBooking)
  {
  }

  lemma BookingSectionTamil()
    ensures SectionFacts(TamilBooking)
  {
  }

  lemma BookingSectionKeys()
    ensures SameKeyColumn(EnglishBooking, TamilBooking)
  {
  }

  lemma PaymentSectionEnglish()
    ensures SectionFacts(EnglishPayment)
  {
  }

  lemma PaymentSectionTamil()
    ensures SectionFacts(TamilPayment)
  {
  }

  lemma PaymentSectionKeys()
    ensures SameKeyColumn(EnglishPayment, TamilPayment)
  {
  }


  /** The sections put together: both tables have no empty value, lack the sign-in form's
      keys and list the same keys in the same order. */
  lemma TableFacts()
    ensures SectionFacts(EnglishEntries) && SectionFacts(TamilEntries)
    ensures SameKeyColumn(EnglishEntries, TamilEntries)
  {
    CommonSectionEnglish();
    CommonSectionTamil();
    CommonSectionKeys();
    AuthSectionEnglish();
    AuthSectionTamil();
    AuthSectionKeys();
    DashboardSectionEnglish();
    DashboardSectionTamil();
    DashboardSectionKeys();
    FormsSectionEnglish();
    FormsSectionTamil();
    FormsSectionKeys();
    BookingSectionEnglish();
    BookingSectionTamil();
    BookingSectionKeys();
    PaymentSectionEnglish();
    PaymentSectionTamil();
    PaymentSectionKeys();
    AppendFacts(EnglishCommon, EnglishAuth, TamilCommon, TamilAuth);
    AppendFacts(EnglishCommon + EnglishAuth, EnglishDashboard, TamilCommon + TamilAuth, TamilDashboard);
    AppendFacts(EnglishCommon + EnglishAuth + EnglishDashboard, EnglishForms, TamilCommon + TamilAuth + TamilDashboard, TamilForms);
    AppendFacts(EnglishCommon + EnglishAuth + EnglishDashboard + EnglishForms, EnglishBooking, TamilCommon + TamilAuth + TamilDashboard + TamilForms, TamilBooking);
    AppendFacts(EnglishCommon + EnglishAuth + EnglishDashboard + EnglishForms + EnglishBooking, EnglishPayment, TamilCommon + TamilAuth + TamilDashboard + TamilForms + TamilBooking, TamilPayment);
  }

  // ---- properties of the lookup ----

  /** Both tables translate the same keys. */
  lemma SameKeys()
    ensures Table(En).Keys == Table(Ta).Keys
  {
    TableFacts();
    SameKeyColumnSameKeys(EnglishEntries, TamilEntries);
  }

  /** No entry is empty, in either table. */
  lemma NoEmptyEntry(lang: Language, key: string)
    requires key in Table(lang)
    ensures Table(lang)[key] != ""
  {
    TableFacts();
    TableOfEntries(if lang == En then EnglishEntries else TamilEntries, key);
  }

  /** The lookup falls back to the key exactly for keys missing from the table, and a key
      translated in one language is translated in the other. */
  lemma FallbackIff(lang: Language, other: Language, key: string)
    ensures T(lang, key) == (if key in Table(lang) then Table(lang)[key] else key)
    ensures key in Table(lang) <==> key in Table(other)
  {
    SameKeys();
    if key in Table(lang) {
      NoEmptyEntry(lang, key);
    }
  }

  /** A key no entry of either table names comes back unchanged. */
  lemma MissingKey(lang: Language, key: string)
    requires Lacks(EnglishEntries, key) && Lacks(TamilEntries, key)
    ensures key !in Table(lang) && T(lang, key) == key
  {
    TableOfEntries(EnglishEntries, key);
    TableOfEntries(TamilEntries, key);
  }

  /** The keys the sign-in form asks for that neither table has come back unchanged. */
  lemma FormKeysUntranslated(lang: Language)
    ensures T(lang, "signup") == "signup"
    ensures T(lang, "fullName") == "fullName"
    ensures T(lang, "confirmPassword") == "confirmPassword"
    ensures T(lang, "backToLogin") == "backToLogin"
    ensures T(lang, "register") == "register"
  {
    TableFacts();
    MissingKey(lang, "signup");
    MissingKey(lang, "fullName");
    MissingKey(lang, "confirmPassword");
    MissingKey(lang, "backToLogin");
    MissingKey(lang, "register");
  }

  /** The lookup never yields the empty string for a non-empty key, so a default written as
      `t(key) || "..."` is never shown. */
  lemma LookupNeverEmpty(lang: Language, key: string)
    requires key != ""
    ensures T(lang, key) != ""
  {
  }

  /** The provider's one state cell: the language, 'en' at first. The tables are constants. */
  class LanguageProvider {
    var language: Language

    constructor ()
      ensures language == En
    {
      language := En;
    }

    method SetLanguage(lang: Language)
      modifies this
      ensures language == lang
    {
      language := lang;
    }

    /** `t` as the provider hands it out, reading the current language. */
    function Translate(key: string): (r: string)
      reads this
      ensures key !in Table(language) ==> r == key
      ensures key in Table(language) ==> r == Table(language)[key]
    {
      FallbackIff(language, language, key);
      T(language, key)
    }
  }
}

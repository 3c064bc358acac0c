/**
 * The settings view: the configuration object, its field-by-field edits, saving it to and
 * loading it from storage as JSON, and the repository connection check.
 */
module SettingsView {
  import opened Options
  import opened Text
  import opened Storage
  import opened Json

  datatype Config = Config(
    businessName: string, githubRepo: string, emailContact: string,
    enableNotifications: bool, branchManagement: string)

  /** The host a repository URL must mention. */
  const GithubHost := "github.com"

  function DefaultConfig(): Config {
    Config("La Maison Marvelous", "https://" + GithubHost + "/votre-compte/maison-manager",
      "contact@marvelous.com", true, "France & Cameroun")
  }

  const ConfigKey := "marvelous-config"

  /** `JSON.stringify(config)`: the properties in declaration order, no whitespace. */
  function EncodeConfig(c: Config): string {
    "{\"businessName\":" + (Quote(c.businessName) +
    (",\"githubRepo\":" + (Quote(c.githubRepo) +
    (",\"emailContact\":" + (Quote(c.emailContact) +
    (",\"enableNotifications\":" + (BoolLiteral(c.enableNotifications) +
    (",\"branchManagement\":" + (Quote(c.branchManagement) + "}")))))))))
  }

  /** `JSON.parse` of text in the form EncodeConfig writes; anything else gives None. */
  function DecodeConfig(s: string): Option<Config> {
    var r0 :- Expect("{\"businessName\":", s);
    var a :- ParseString(r0);
    var r1 :- Expect(",\"githubRepo\":", a.1);
    var b :- ParseString(r1);
    var r2 :- Expect(",\"emailContact\":", b.1);
    var e :- ParseString(r2);
    var r3 :- Expect(",\"enableNotifications\":", e.1);
    var n :- ParseBool(r3);
    var r4 :- Expect(",\"branchManagement\":", n.1);
    var m :- ParseString(r4);
    var r5 :- Expect("}", m.1);
    if r5 == "" then Some(Config(a.0, b.0, e.0, n.0, m.0)) else None
  }

  /** Every configuration, whatever its strings hold, reads back from its JSON text. */
  lemma ConfigRoundTrip(c: Config)
    ensures DecodeConfig(EncodeConfig(c)) == Some(c)
  {
    var t5 := "}";
    var t4 := Quote(c.branchManagement) + t5;
    var u4 := ",\"branchManagement\":" + t4;
    var t3 := BoolLiteral(c.enableNotifications) + u4;
    var u3 := ",\"enableNotifications\":" + t3;
    var t2 := Quote(c.emailContact) + u3;
    var u2 := ",\"emailContact\":" + t2;
    var t1 := Quote(c.githubRepo) + u2;
    var u1 := ",\"githubRepo\":" + t1;
    var t0 := Quote(c.businessName) + u1;
    assert EncodeConfig(c) == "{\"businessName\":" + t0;
    ExpectRoundTrip("{\"businessName\":", t0);
    StringRoundTrip(c.businessName, u1);
    ExpectRoundTrip(",\"githubRepo\":", t1);
    StringRoundTrip(c.githubRepo, u2);
    ExpectRoundTrip(",\"emailContact\":", t2);
    StringRoundTrip(c.emailContact, u3);
    ExpectRoundTrip(",\"enableNotifications\":", t3);
    BoolRoundTrip(c.enableNotifications, u4);
    ExpectRoundTrip(",\"branchManagement\":", t4);
    StringRoundTrip(c.branchManagement, t5);
    ExpectRoundTrip("}", "");
    assert "}" + "" == t5;
  }

  /** The stored configuration, when a (truthy) value is stored under its key. */
  function StoredConfig(items: map<string, string>): Option<Config> {
    var v := Lookup(items, ConfigKey);
    if Truthy(v) then DecodeConfig(v.value) else None
  }

  /** Whatever is stored under the key is a configuration's JSON text. */
  predicate ConfigStoreWellFormed(items: map<string, string>) {
    Truthy(Lookup(items, ConfigKey)) ==> StoredConfig(items).Some?
  }

  /** What is saved is what the next load restores, and saving keeps the storage well formed. */
  lemma SavedConfigIsLoaded(items: map<string, string>, c: Config)
    ensures StoredConfig(items[ConfigKey := EncodeConfig(c)]) == Some(c)
    ensures ConfigStoreWellFormed(items[ConfigKey := EncodeConfig(c)])
  {
    ConfigRoundTrip(c);
  }

  /** The three fields the form edits. */
  datatype ConfigField = BusinessNameField | GithubRepoField | EmailContactField

  function FieldValue(c: Config, f: ConfigField): string {
    match f
    case BusinessNameField => c.businessName
    case GithubRepoField => c.githubRepo
    case EmailContactField => c.emailContact
  }

  /** `{...config, field: value}`: the field takes the value and nothing else changes. */
  function Edited(c: Config, f: ConfigField, value: string): (r: Config)
    ensures FieldValue(r, f) == value
    ensures forall g :: g != f ==> FieldValue(r, g) == FieldValue(c, g)
    ensures r.enableNotifications == c.enableNotifications && r.branchManagement == c.branchManagement
  {
    match f
    case BusinessNameField => c.(businessName := value)
    case GithubRepoField => c.(githubRepo := value)
    case EmailContactField => c.(emailContact := value)
  }

  datatype GithubStatus = Idle | Connected | CheckError

  /** The outcome of a check: connected exactly when the URL mentions github.com. */
  function CheckOutcome(url: string): (r: GithubStatus)
    ensures r == Connected <==> Contains(url, GithubHost)
    ensures r == CheckError <==> !Contains(url, GithubHost)
  {
    if Contains(url, GithubHost) then Connected else CheckError
  }

  /** The default repository URL passes the check. */
  lemma DefaultRepoConnects()
    ensures CheckOutcome(DefaultConfig().githubRepo) == Connected
  {
    ContainsInfix("https://", GithubHost, "/votre-compte/maison-manager");
  }

  class SettingsPanel {
    var config: Config
    var isChecking: bool
    var githubStatus: GithubStatus

    constructor()
      ensures config == DefaultConfig() && !isChecking && githubStatus == Idle
    {
      config := DefaultConfig();
      isChecking := false;
      githubStatus := Idle;
    }

    /** The mount effect: a stored configuration replaces the current one only if there is one. */
    method Load(store: LocalStorage)
      requires ConfigStoreWellFormed(store.items)
      modifies this`config
      ensures config == StoredConfig(store.items).GetOr(old(config))
    {
      var saved := store.GetItem(ConfigKey);
      if Truthy(saved) {
        config := DecodeConfig(saved.value).value;
      }
    }

    /** `handleSave`: the configuration goes under its key as JSON. */
    method Save(store: LocalStorage)
      modifies store
      ensures store.items == old(store.items)[ConfigKey := EncodeConfig(config)]
      ensures StoredConfig(store.items) == Some(config)
    {
      store.SetItem(ConfigKey, EncodeConfig(config));
      SavedConfigIsLoaded(old(store.items), config);
    }

    /** Typing in one of the form's inputs. */
    method Edit(f: ConfigField, value: string)
      modifies this`config
      ensures config == Edited(old(config), f, value)
    {
      config := Edited(config, f, value);
    }

    /**
     * `checkConnection` up to the timer: the flag is raised and the URL of the configuration
     * as it is now is what the timer's callback will test.
     */
    method StartCheck() returns (captured: string)
      modifies this`isChecking
      ensures isChecking && captured == config.githubRepo
      ensures CheckDisabled()
    {
      isChecking := true;
      captured := config.githubRepo;
    }

    /** The timer's callback: the flag drops and the status is the outcome for the captured URL. */
    method FinishCheck(captured: string)
      modifies this`isChecking, this`githubStatus
      ensures !isChecking && githubStatus == CheckOutcome(captured)
      ensures !CheckDisabled()
      ensures config == old(config)
    {
      isChecking := false;
      githubStatus := CheckOutcome(captured);
    }

    /** The check button is disabled exactly while a check runs. */
    predicate CheckDisabled()
      reads this
    {
      isChecking
    }
  }
}

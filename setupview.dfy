/** The backend setup screen: the project URL and key fields, the connection
    test that moves the screen through idle, testing, success and error, the
    guard on saving, and the link that pre-fills both fields. */
module SetupView {
  import opened Types
  import opened Tts

  datatype TestStatus = Idle | Testing | Success | Error

  /** How a connection test ended: no client could be built, the query
      reported an error with this message, or the query went through. */
  datatype Probe = NoClient | QueryError(message: string) | Connected

  const NoClientMessage := "Invalid URL/Key format"
  const FallbackMessage := "Connection failed. Check console."

  /** The message shown for a failed test: the error's own, or a fallback
      when it has none. */
  function FailureMessage(p: Probe): (msg: string)
    requires !p.Connected?
    ensures msg != ""
    ensures p.QueryError? && p.message != "" ==> msg == p.message
  {
    match p
    case NoClient => NoClientMessage
    case QueryError(m) => if m != "" then m else FallbackMessage
  }

  /** What the `config` link parameter yields once base64-decoded and parsed:
      `parse` stands for the JSON step and gives the `url` and `key` members,
      a missing or non-string member read as empty, or `None` where it throws. */
  function LinkFields(config: Option<string>, parse: string -> Option<(string, string)>): (r: Option<(string, string)>)
    ensures r.Some? ==> (config.Some? && Atob(config.value).Some? &&
      parse(Atob(config.value).value) == r && r.value.0 != "" && r.value.1 != "")
    ensures config.None? || config == Some("") ==> r.None?
    // a present link that decodes and parses to two non-empty values fills the fields
    ensures (config.Some? && config.value != "" && Atob(config.value).Some? &&
      parse(Atob(config.value).value).Some? && parse(Atob(config.value).value).value.0 != "" &&
      parse(Atob(config.value).value).value.1 != "") ==> r == parse(Atob(config.value).value)
  {
    if config.None? || config.value == "" then None
    else match Atob(config.value)
      case None => None
      case Some(decoded) =>
        match parse(decoded)
        case None => None
        case Some(fields) => if fields.0 != "" && fields.1 != "" then Some(fields) else None
  }

  class Setup {
    var url: string
    var key: string
    var status: TestStatus
    var errorMsg: string
    /** The credentials some test has found to work. */
    ghost var connected: set<(string, string)>

    /** The intended meaning of `Success`: the credentials in the fields are
        ones a test has connected with. */
    ghost predicate Trusted()
      reads this
    {
      status == Success ==> (url, key) in connected
    }

    constructor ()
      ensures url == "" && key == "" && status == Idle && errorMsg == "" && connected == {}
      ensures Trusted()
    {
      url, key, status, errorMsg := "", "", Idle, "";
      connected := {};
    }

    /** Filling in the fields from the link leaves the status as it is, so
        `Trusted()` survives unless the fields change under a `Success`. */
    method ApplyLink(config: Option<string>, parse: string -> Option<(string, string)>)
      modifies this`url, this`key
      ensures LinkFields(config, parse).Some? ==> (url, key) == LinkFields(config, parse).value
      ensures LinkFields(config, parse).None? ==> url == old(url) && key == old(key)
      ensures status == old(status) && connected == old(connected)
      ensures old(Trusted()) && (old(status) != Success || LinkFields(config, parse).None?) ==> Trusted()
    {
      var fields := LinkFields(config, parse);
      if fields.Some? {
        url, key := fields.value.0, fields.value.1;
      }
    }

    /** Typing in either field sends the screen back to idle. */
    method EditUrl(text: string)
      modifies this`url, this`status
      ensures url == text && status == Idle && Trusted()
    {
      url, status := text, Idle;
    }

    method EditKey(text: string)
      modifies this`key, this`status
      ensures key == text && status == Idle && Trusted()
    {
      key, status := text, Idle;
    }

    /** The test button is disabled while a field is empty or a test runs. */
    predicate TestDisabled()
      reads this
    {
      url == "" || key == "" || status == Testing
    }

    /** The save button is disabled unless the last test succeeded. */
    predicate SaveDisabled()
      reads this
    {
      status != Success
    }

    /** A test starts on the credentials in the fields, which it returns. */
    method StartTest() returns (tested: (string, string))
      modifies this`status, this`errorMsg
      ensures status == Testing && errorMsg == "" && tested == (url, key)
      ensures Trusted()
    {
      status, errorMsg := Testing, "";
      tested := (url, key);
    }

    /** The end of a test of `tested`, as written: the outcome is applied to
        the screen whatever the fields hold by then. */
    method FinishTest(tested: (string, string), probe: Probe)
      modifies this`status, this`errorMsg, this`connected
      ensures probe.Connected? ==> status == Success && errorMsg == old(errorMsg)
      ensures !probe.Connected? ==> status == Error && errorMsg == FailureMessage(probe)
      ensures connected == old(connected) + (if probe.Connected? then {tested} else {})
    {
      if probe.Connected? {
        status := Success;
        connected := connected + {tested};
      } else {
        status, errorMsg := Error, FailureMessage(probe);
      }
    }

    /** The end of a test of `tested`, applied only while the fields still
        hold those credentials; a stale outcome is dropped. */
    method FinishCurrentTest(tested: (string, string), probe: Probe)
      requires Trusted()
      modifies this`status, this`errorMsg, this`connected
      ensures tested == (url, key) && probe.Connected? ==> status == Success && errorMsg == old(errorMsg)
      ensures tested == (url, key) && !probe.Connected? ==> status == Error && errorMsg == FailureMessage(probe)
      ensures tested != (url, key) ==> status == old(status) && errorMsg == old(errorMsg)
      ensures connected == old(connected) + (if probe.Connected? then {tested} else {})
      ensures Trusted()
    {
      if probe.Connected? {
        connected := connected + {tested};
      }
      if tested == (url, key) {
        if probe.Connected? {
          status := Success;
        } else {
          status, errorMsg := Error, FailureMessage(probe);
        }
      }
    }

    /** Save hands over the credentials only when both fields are filled and
        the last test succeeded; with the intended meaning of `Success`, the
        saved credentials are ones a test connected with. */
    method HandleSave() returns (saved: Option<(string, string)>)
      ensures saved.Some? <==> url != "" && key != "" && status == Success
      ensures saved.Some? ==> saved.value == (url, key)
      ensures saved.Some? && Trusted() ==> saved.value in connected
    {
      if url != "" && key != "" && status == Success {
        saved := Some((url, key));
      } else {
        saved := None;
      }
    }
  }

  /** With the fields edited while a test is running, the as-written end of
      the test leaves the screen ready to save credentials no test connected with. */
  method StaleTestEnablesSave() returns (s: Setup, saved: Option<(string, string)>)
    ensures s.status == Success && !s.Trusted()
    ensures saved == Some(("https://b.example", "key")) && saved.value !in s.connected
  {
    s := new Setup();
    s.EditUrl("https://a.example");
    s.EditKey("key");
    var tested := s.StartTest();
    s.EditUrl("https://b.example");
    s.FinishTest(tested, Connected);
    assert ("https://a.example", "key") != ("https://b.example", "key");
    saved := s.HandleSave();
  }

  /** With the corrected end of a test, the same sequence leaves the screen
      idle and nothing can be saved. */
  method StaleTestIsDropped() returns (s: Setup, saved: Option<(string, string)>)
    ensures s.status == Idle && s.Trusted() && saved.None?
  {
    s := new Setup();
    s.EditUrl("https://a.example");
    s.EditKey("key");
    var tested := s.StartTest();
    s.EditUrl("https://b.example");
    s.FinishCurrentTest(tested, Connected);
    saved := s.HandleSave();
  }
}

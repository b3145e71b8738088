/** When a Start opens a window, and a run in which one flow takes the PIN of another. */
module LifecycleWitness {
  import opened Text
  import opened Wrappers
  import UriGrammar
  import UriRoundTrip
  import UriTheorems
  import Completion
  import CompletionTheorems
  import CompletionCases
  import Storage
  import opened Lifecycle
  import opened LifecycleSafety
  import opened LifecycleEvents
  import opened LifecycleStart
  import opened LifecycleDispatch
  import opened LifecycleRuns
  import opened LifecycleHistory
  import opened LifecycleTheorems
  import opened LifecycleIsolation
  import opened LifecycleOwner
  import opened LifecycleOutcome

  /** A Start opens a window exactly when the sender, the arguments, the path and the store all allow it. */
  lemma WindowOpensExactly(events: seq<Event>, c: StartCall)
    ensures var s, z := Reached(events), Reached(events + [StartReceived(c)]); var id := |s.flows|;
      && id <= |z.flows| && z.flows[..id] == s.flows
      && (Receives(z, id) <==>
          && Trusts(Reports(events), c.sender, c.first, c.second)
          && CompletionCases.StartTextIsFit(c.startUri) && CompletionCases.CompletionTextIsFit(c.completionUri)
          && (c.sessionMode == None || c.sessionMode == Some("shared") || c.sessionMode == Some("ephemeral"))
          && c.exportOk && !IsAddressed(s, c.path)
          && HasStore(c))
      && (Receives(z, id) ==>
          && |z.flows| == id + 1 && IsAsAsked(z.flows[id], c, s.invocations, s.now)
          && z.registry == s.registry[c.path := id]
          && z.owner == c.sender && z.resolved && z.pin == s.pin && z.invocations == s.invocations + 1)
  {
    hide Reached, Idle, HasStore, IsAsAsked, Trusts, IsAddressed, CompletionCases.StartTextIsFit, CompletionCases.CompletionTextIsFit;
    StartOutcome(events, c);
  }

  // ---------- Valid arguments exist ----------

  function RootOf(host: string): UriGrammar.Uri { UriGrammar.Uri("https", None, Some(host), None, "/", None, None) }

  lemma RootIsNormal()
    ensures UriGrammar.NormalTail(UriGrammar.Tail("/", None, None)) == Some(UriGrammar.Tail("/", None, None))
  {
    var s := "/";
    UriTheorems.SlashIsEscaped();
    assert UriGrammar.FirstSegment(s) == 1;
    assert s[1..] == "" && "" + s[..1] == s;
    assert UriGrammar.RemoveDots(s, "") == UriGrammar.RemoveDots("", s);
  }

  lemma RootPrints(host: string)
    requires UriGrammar.IsHost(host)
    ensures UriGrammar.Parse("https://" + host + "/") == Some(RootOf(host))
  {
    hide UriGrammar.NormalTail, UriGrammar.Parse;
    var u := RootOf(host);
    RootIsNormal();
    assert UriGrammar.IsScheme("https") && Lower("https") == "https";
    UriRoundTrip.ParsePrinted(u);
    assert UriGrammar.Normalised(u) == u;
    assert UriGrammar.PrintTail(UriGrammar.TailOf(u)) == "/";
    assert UriGrammar.Print(u) == "https" + ":" + ("//" + ("" + host) + "/");
    assert UriGrammar.Print(u) == "https://" + host + "/";
  }

  /** The root page of any plain host is a valid start URI and a valid completion URI. */
  lemma RootIsValid(host: string)
    requires UriGrammar.IsHost(host) && 0 < |host| <= 255 && '*' !in host
    ensures Completion.StartUriIsValid(Some("https://" + host + "/"))
    ensures Completion.CompletionUriIsValid(Some("https://" + host + "/"))
  {
    hide UriGrammar.Parse, Completion.Checked;
    var text := "https://" + host + "/";
    RootPrints(host);
    CompletionTheorems.CheckedAccepts(text);
    forall i | 0 <= i < |text|
      ensures !Completion.IsForbidden(text[i])
    {
      assert 8 <= i < 8 + |host| ==> text[i] == host[i - 8];
      assert i < 8 ==> text[i] == "https://"[i];
    }
  }

  // ---------- Two flows and one PIN ----------

  function Call(path: string): StartCall {
    var frontend := Some(":1.5");
    StartCall(frontend, frontend, frontend, path, "app", "https://a/", "https://a/", Some("ephemeral"), None, true, true, Some(Pkcs11))
  }

  lemma CallIsFit(path: string)
    ensures ArgumentsAreFit(Call(path)) && HasStore(Call(path))
  {
    hide Completion.StartUriIsValid, Completion.CompletionUriIsValid, CompletionCases.StartTextIsFit, CompletionCases.CompletionTextIsFit;
    assert "https://" + "a" + "/" == "https://a/";
    RootIsValid("a");
    CompletionCases.StartAcceptedExactly(Some("https://a/"));
    CompletionCases.CompletionAcceptedExactly(Some("https://a/"));
  }

  lemma CallOpens(events: seq<Event>, path: string)
    requires var o := Some(":1.5"); Trusts(Reports(events), o, o, o) && !IsAddressed(Reached(events), path)
    ensures var s, z := Reached(events), Reached(events + [StartReceived(Call(path))]); var id := |s.flows|;
      && |z.flows| == id + 1 && z.flows[..id] == s.flows && Receives(z, id)
      && UsesPkcs11(z.flows[id]) && z.flows[id].start.path == path
  {
    hide Reached, Trusts, ArgumentsAreFit, HasStore, IsAddressed, Reports;
    CallIsFit(path);
    StartOutcome(events, Call(path));
  }

  lemma FirstReports(path: string)
    ensures Reports([]) == []
    ensures var o := Some(":1.5"); Trusts(Reports([StartReceived(Call(path))]), o, o, o)
  {
    var o, e := Some(":1.5"), StartReceived(Call(path));
    ReportsNext([], e);
    assert [] + [e] == [e];
    assert !WasAnswered([]);
    NotAnswered([], o);
    NotAnswered([] + [Answered(o)], o);
    assert [] + [Answered(o)] == [Answered(o)];
    assert [] + ([Answered(o)] + [Answered(o)]) == [Answered(o)] + [Answered(o)];
  }

  /** Both windows are up after two calls, each with the pkcs11 provider. */
  lemma TwoWindows()
    ensures var z := Reached([StartReceived(Call("/1"))] + [StartReceived(Call("/2"))]);
      && Receives(z, 0) && Receives(z, 1)
      && UsesPkcs11(z.flows[0]) && UsesPkcs11(z.flows[1])
  {
    hide Reached, Trusts, Call, Reports;
    var a, b := StartReceived(Call("/1")), StartReceived(Call("/2"));
    NothingReported();
    FirstReports("/1");
    NothingKnown();
    assert [] + [a] == [a];
    CallOpens([], "/1");
    assert "/1"[1] != "/2"[1];
    CallOpens([a], "/2");
    assert Reached([a] + [b]).flows[0] == Reached([a] + [b]).flows[..1][0] == Reached([a]).flows[0];
  }

  lemma NothingKnown()
    ensures var o := Some(":1.5"); Trusts([], o, o, o)
  {}

  /**
    It happens: the first flow's PIN is answered, the second flow ends, and the
    first, still up, has lost its PIN.
   */
  lemma PinLossHappens()
    ensures var events := [StartReceived(Call("/1"))] + [StartReceived(Call("/2"))];
      var read := events + [Authenticate(0, PinRequested(Some("1234\n")))];
      && Reached(read).pin.Some?
      && Receives(Reached(read + [UserCancels(1)]), 0) && Reached(read + [UserCancels(1)]).pin.None?
  {
    hide Reached, Call;
    var events := [StartReceived(Call("/1"))] + [StartReceived(Call("/2"))];
    TwoWindows();
    PinIsRead(events, 0, "1234\n");
    PinIsLostToAnotherFlow(events, 0, 1, "1234\n", UserCancels(1));
  }
}

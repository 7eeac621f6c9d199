/** Concrete uses of the logger, taken from its package documentation. */
module JellyExamples {
  import opened Wrappers
  import opened Text
  import opened Jelly

  const UnixHost := Host(Some("/home/ana"), '/', NotExist, true, true)

  /** `NewLog("app")` logs to `<home>/.jelly/app.log`. */
  lemma NewLogAppendsSuffix()
    ensures NewLog("app", UnixHost).result == Success(Logger("/home/ana/.jelly/app.log", "app.log"))
    ensures NewLog("app", UnixHost).calls ==
      [CurrentUser, Stat("/home/ana/.jelly"), Mkdir("/home/ana/.jelly"), Create("/home/ana/.jelly/app.log")]
  {
    assert !Contains("app", LogSuffix);
    assert NormaliseName("app") == "app.log";
    HomePaths();
  }

  lemma HomePaths()
    ensures BaseDir("/home/ana", '/') == "/home/ana/.jelly"
    ensures LogPath("/home/ana", '/', "app.log") == "/home/ana/.jelly/app.log"
  {
    assert "/home/ana" + ['/'] + ConfigDir == "/home/ana/.jelly";
    assert "/home/ana/.jelly" + ['/'] + "app.log" == "/home/ana/.jelly/app.log";
  }

  /** `NewLog("app.log")` keeps the name as it is. */
  lemma NewLogKeepsSuffix()
    ensures NewLog("app.log", UnixHost).result == Success(Logger("/home/ana/.jelly/app.log", "app.log"))
  {
    assert OccursAt("app.log", LogSuffix, 3);
    HomePaths();
  }

  /** Names that contain `.log` anywhere are left alone, even when they do not end with it. */
  lemma ContainedSuffixIsEnough()
    ensures NormaliseName("app.log.old") == "app.log.old"
    ensures NormaliseName("x.logs") == "x.logs"
  {
    assert OccursAt("app.log.old", LogSuffix, 3);
    assert OccursAt("x.logs", LogSuffix, 1);
  }

  /** An empty name fails whatever the host would have reported. */
  lemma EmptyNameFails(host: Host)
    ensures NewLog("", host) == Construction(Failure(EmptyLogName), [])
  {
  }

  /** The base name of a path is what follows its last `/`. */
  lemma BasenameExample()
    ensures Basename("/src/app/main.go") == "main.go"
  {
    var file := "/src/app/main.go";
    var r := Basename(file);
    assert r == file[9..];
  }

  /** The rendered values, each followed by a space. */
  lemma JoinedExample()
    ensures Joined(["hello", "world", "42", "true"]) == "hello world 42 true "
  {
    assert ["hello", "world", "42", "true"][..3] == ["hello", "world", "42"];
    assert ["hello", "world", "42"][..2] == ["hello", "world"];
    assert ["hello", "world"][..1] == ["hello"];
    assert ["hello"][..0] == [];
  }

  /** `Info("hello", "world", 42, true)` called from line 22 of /src/app/main.go. */
  method InfoExample() returns (line: string)
    ensures line == "main.go:22 INFO - hello world 42 true \n"
  {
    var caller, values := Caller("/src/app/main.go", 22), ["hello", "world", "42", "true"];
    line := Info(caller, values);
    JoinedExample();
    InfoLineExample();
  }

  lemma InfoLineExample()
    ensures WriteLine("INFO", Caller("/src/app/main.go", 22), "hello world 42 true ") ==
      "main.go:22 INFO - hello world 42 true \n"
  {
    WriteLineShape("INFO", Caller("/src/app/main.go", 22), "hello world 42 true ");
    LeadExample();
    InfoLineText(LeadIn(Caller("/src/app/main.go", 22)));
  }

  lemma LeadExample()
    ensures LeadIn(Caller("/src/app/main.go", 22)) == "main.go:22 "
  {
    BasenameExample();
    assert Decimal(22) == "22";
  }

  lemma InfoLineText(lead: string)
    requires lead == "main.go:22 "
    ensures lead + "INFO" + " - " + "hello world 42 true " + "\n" == "main.go:22 INFO - hello world 42 true \n"
  {
  }

  /** `Die` with no values writes an empty message and asks for exit status 1. */
  method DieExample() returns (line: string, status: int)
    ensures line == "main.go:7 DIE - \n" && status == 1
  {
    line, status := Die(Caller("main.go", 7), []);
    DieLineExample();
  }

  lemma DieLineExample()
    ensures WriteLine("DIE", Caller("main.go", 7), Joined([])) == "main.go:7 DIE - \n"
  {
    assert Joined([]) == "";
    WriteLineShape("DIE", Caller("main.go", 7), "");
    DieLeadExample();
    DieLineText(LeadIn(Caller("main.go", 7)));
  }

  lemma DieLeadExample()
    ensures LeadIn(Caller("main.go", 7)) == "main.go:7 "
  {
    assert Basename("main.go") == "main.go";
    assert Decimal(7) == "7";
  }

  lemma DieLineText(lead: string)
    requires lead == "main.go:7 "
    ensures lead + "DIE" + " - " + "" + "\n" == "main.go:7 DIE - \n"
  {
  }
}

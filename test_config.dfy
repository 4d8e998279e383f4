/**
 * The test configuration: constant tables (environments, browser options,
 * timeouts, test data, selectors, performance thresholds) and `getConfig`,
 * which copies them and adds the chosen environment's name and URLs, falling
 * back to the `local` URLs for an unknown name.
 */
module TestConfig {
  import opened Wrappers

  datatype Urls = Urls(frontendUrl: string, backendUrl: string)

  datatype Chrome = Chrome(headless: bool, args: seq<string>)

  datatype Browser = Browser(chrome: Chrome)

  /** In milliseconds. */
  datatype Timeouts = Timeouts(implicit: nat, pageLoad: nat, script: nat, testCase: nat)

  datatype TestData = TestData(sampleTasks: seq<string>, specialCharTasks: seq<string>)

  datatype Selectors = Selectors(
    todoInput: string, addButton: string, todoItems: string, deleteButton: string, editButton: string,
    checkboxIcon: string, noTasksMessage: string, todoText: string, editInput: string)

  /** Times in milliseconds, and a task count. */
  datatype Performance = Performance(
    pageLoadTime: nat, taskAddTime: nat, taskDeleteTime: nat, maxTasksForPerformanceTest: nat)

  /** The exported configuration object, without `getConfig` itself. */
  datatype Settings = Settings(
    environments: map<string, Urls>, browser: Browser, timeouts: Timeouts,
    testData: TestData, selectors: Selectors, performance: Performance)

  /** What `getConfig` returns: every field of the settings, plus `currentEnv` and `urls`. */
  datatype EnvConfig = EnvConfig(
    environments: map<string, Urls>, browser: Browser, timeouts: Timeouts,
    testData: TestData, selectors: Selectors, performance: Performance,
    currentEnv: string, urls: Urls)

  const DefaultEnv := "local"

  const LocalUrls := Urls("http://localhost:3100", "http://localhost:5100")

  const Environments: map<string, Urls> := map[
    "local" := LocalUrls,
    "docker" := Urls("http://localhost:3100", "http://localhost:5100"),
    "staging" := Urls("http://staging.todo-app.com", "http://staging-api.todo-app.com"),
    "production" := Urls("http://todo-app.com", "http://api.todo-app.com")
  ]

  const ChromeArgs := [
    "--no-sandbox", "--disable-dev-shm-usage", "--disable-gpu", "--window-size=1920,1080",
    "--disable-extensions", "--disable-web-security", "--disable-features=VizDisplayCompositor"
  ]

  const TimeoutTable := Timeouts(10000, 30000, 30000, 30000)

  const SampleTasks := [
    "Buy groceries", "Complete project documentation", "Call client for meeting",
    "Review code changes", "Update system dependencies"
  ]

  /** The second entry is the rocket emoji's UTF-8 bytes read as Windows-1252, as the table holds it. */
  const SpecialCharTasks := [
    "Task with special chars: !@#$%^&*()",
    "Unicode task: \U{00F0}\U{0178}\U{0161}\U{20AC} Launch rocket",
    "HTML tags: <script>alert(\"test\")</script>",
    "SQL injection: '; DROP TABLE todos; --"
  ]

  const SelectorTable := Selectors(
    "input[placeholder=\"Enter a task\"]", "button", ".task", ".icon:last-child", ".icon:nth-last-child(2)",
    ".checkbox .icon", "//div[contains(text(), \"No tasks found\")]", ".task p", ".task input[type=\"text\"]")

  const PerformanceTable := Performance(5000, 3000, 2000, 20)

  const Config := Settings(
    Environments, Browser(Chrome(true, ChromeArgs)), TimeoutTable,
    TestData(SampleTasks, SpecialCharTasks), SelectorTable, PerformanceTable)

  /**
   * `getConfig(env = 'local')`: `env` is None when the argument is left out
   * (or `undefined`). The lookup falls back to `local` with `||`; every entry
   * of the table is an object, hence truthy, so the fallback happens exactly
   * for names the table does not hold.
   */
  function GetConfig(env: Option<string>): (r: EnvConfig)
    ensures r.currentEnv == env.GetOr(DefaultEnv)
    ensures r.currentEnv in Environments ==> r.urls == Environments[r.currentEnv]
    ensures r.currentEnv !in Environments ==> r.urls == Environments[DefaultEnv]
    ensures r.urls in Environments.Values
    ensures && r.environments == Config.environments && r.browser == Config.browser
            && r.timeouts == Config.timeouts && r.testData == Config.testData
            && r.selectors == Config.selectors && r.performance == Config.performance
    ensures r.timeouts == Timeouts(10000, 30000, 30000, 30000)
  {
    var name := env.GetOr(DefaultEnv);
    var c := Config;
    EnvConfig(
      c.environments, c.browser, c.timeouts, c.testData, c.selectors, c.performance,
      name, if name in c.environments then c.environments[name] else c.environments[DefaultEnv])
  }

  /** Leaving the argument out is the same as asking for `local`. */
  lemma DefaultIsLocal()
    ensures GetConfig(None) == GetConfig(Some("local"))
    ensures GetConfig(None).urls == LocalUrls
  {
  }

  /** An unknown name keeps its own name in `currentEnv` while its URLs are those of `local`. */
  lemma UnknownNameFallsBack(env: string)
    requires env !in {"local", "docker", "staging", "production"}
    ensures GetConfig(Some(env)).currentEnv == env
    ensures GetConfig(Some(env)).urls == LocalUrls
  {
  }
}

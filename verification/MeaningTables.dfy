/** The tables of the meaning compiler as relations: which task is named, and what each task shows, intends and ships. */
module MeaningTables {
  import opened CanonicalSpec
  import opened Lists
  import opened MeaningSpec
  import opened MeaningText
  import opened Ordering
  import opened Schema

  /** The task of the first token in the functional intent. */
  function NamedTask(intent: string): string {
    if Includes(intent, "focus_monitoring") then "focus_stability_dashboard"
    else if Includes(intent, "anomaly_detection") then "behavior_anomaly_monitor"
    else if Includes(intent, "recovery_analysis") then "recovery_pattern_analysis"
    else if Includes(intent, "habit_tracker") then "habit_tracker"
    else if Includes(intent, "sleep_monitor") then "sleep_monitor"
    else if Includes(intent, "productivity_timer") then "productivity_timer"
    else if Includes(intent, "api_service_mode") then "api_service_mode"
    else if Includes(intent, "offline_local_app") then "offline_local_app"
    else if Includes(intent, "realtime_stream_processor") then "realtime_stream_processor"
    else if Includes(intent, "physiological_monitor_app") then "physiological_monitor_app"
    else "meaning_analysis"
  }

  function IntentText(m: Meaning): string {
    match m.functionalIntent case Some(text) => text case None => ""
  }

  /** The data model decides first, by heart rate, sleep, habits and events in this order; then the functional intent. */
  ghost function ExpectedTask(m: Meaning, lower: Lower): string {
    if exists f :: f in m.dataModel && lower(f.name) == "heart_rate" then "physiological_monitor_app"
    else if exists f :: f in m.dataModel && lower(f.name) == "sleep_duration" then "sleep_monitor"
    else if exists f :: f in m.dataModel && (Includes(lower(f.name), "habit") || Includes(lower(f.name), "streak")) then "habit_tracker"
    else if exists f :: f in m.dataModel && lower(f.name) == "event_stream" then "realtime_stream_processor"
    else NamedTask(lower(IntentText(m)))
  }

  predicate ShownAs(task: string, uiType: string) {
    match task
    case "focus_stability_dashboard" => uiType == "desktop_gui"
    case "behavior_anomaly_monitor" => uiType == "alert_panel"
    case "recovery_pattern_analysis" => uiType == "dashboard"
    case "habit_tracker" => uiType == "dashboard"
    case "sleep_monitor" => uiType == "dashboard"
    case "productivity_timer" => uiType == "timer_ui"
    case "api_service_mode" => uiType == "api"
    case "offline_local_app" => uiType == "desktop_gui"
    case "realtime_stream_processor" => uiType == "stream_dashboard"
    case _ => uiType == "dashboard"
  }

  predicate Intends(task: string, intent: string) {
    match task
    case "focus_stability_dashboard" => intent == "focus_monitor"
    case "behavior_anomaly_monitor" => intent in {"alert", "monitor"}
    case "recovery_pattern_analysis" => intent in {"behavior_feedback", "analysis"}
    case "habit_tracker" => intent in {"streak_tracking", "habit"}
    case "sleep_monitor" => intent in {"analysis", "sleep_monitoring"}
    case "productivity_timer" => intent in {"session_tracking", "focus_timer"}
    case "api_service_mode" => intent in {"endpoint", "service"}
    case "offline_local_app" => intent in {"offline_first", "local_storage"}
    case "realtime_stream_processor" => intent in {"event_processing", "stream"}
    case "physiological_monitor_app" => intent in {"alert", "physiological_monitor"}
    case _ => false
  }

  /** The files of a task, besides the description that each has. */
  predicate Ships(task: string, file: string) {
    file == "README.md" ||
    match task
    case "focus_stability_dashboard" =>
      file in {"core/public/app.js", "core/public/dashboard.html", "core/dashboard.js", "core/heatmap.js"}
    case "behavior_anomaly_monitor" =>
      file in {"core/public/app.js", "core/public/alert_panel.html", "core/alert_engine.js", "core/monitor.js"}
    case "recovery_pattern_analysis" =>
      file in {"core/public/app.js", "core/public/recovery_dashboard.html", "core/analysis.js", "core/recovery_model.js"}
    case "habit_tracker" =>
      file in {"core/public/app.js", "core/public/habit_dashboard.html", "core/habit.js", "core/streak_engine.js"}
    case "sleep_monitor" =>
      file in {"core/public/app.js", "core/public/sleep_dashboard.html", "core/sleep_analysis.js", "core/sleep_model.js"}
    case "productivity_timer" =>
      file in {"core/public/app.js", "core/public/timer.html", "core/session_engine.js", "core/timer.js"}
    case "api_service_mode" => file in {"core/api.js", "core/router.js", "core/server.js"}
    case "offline_local_app" => file in {"core/public/index.html", "core/app.js", "core/local_store.js"}
    case "realtime_stream_processor" => file in {"core/public/stream_dashboard.html", "core/event_handler.js", "core/stream.js"}
    case "physiological_monitor_app" =>
      file in {"core/public/physio_dashboard.html", "core/alert_engine.js", "core/physio_monitor.js"}
    case _ => file in {"core/public/index.html", "core/app.js"}
  }

  function FirstToken(intent: string): nat {
    if Includes(intent, "focus_monitoring") then 0
    else if Includes(intent, "anomaly_detection") then 1
    else if Includes(intent, "recovery_analysis") then 2
    else if Includes(intent, "habit_tracker") then 3
    else if Includes(intent, "sleep_monitor") then 4
    else if Includes(intent, "productivity_timer") then 5
    else if Includes(intent, "api_service_mode") then 6
    else if Includes(intent, "offline_local_app") then 7
    else if Includes(intent, "realtime_stream_processor") then 8
    else if Includes(intent, "physiological_monitor_app") then 9
    else 10
  }

  lemma RulesNameTask(intent: string)
    ensures ResolveAiTask(intent, FUNCTIONAL_INTENT_RULES) == NamedTask(intent)
  {
    var i := FirstToken(intent);
    ResolveAiTaskIsFirstMatch(intent, FUNCTIONAL_INTENT_RULES, i);
  }

  lemma ProfilesShow(task: string, ui: string)
    ensures TaskProfile(task).uiType == ui <==> ShownAs(task, ui)
  {
  }

  lemma EarlierProfilesIntend(task: string, x: string)
    requires task == "focus_stability_dashboard" || task == "behavior_anomaly_monitor" || task == "recovery_pattern_analysis"
             || task == "habit_tracker" || task == "sleep_monitor"
    ensures x in TaskProfile(task).featureIntents <==> Intends(task, x)
  {
  }

  lemma LaterProfilesIntend(task: string, x: string)
    requires task == "productivity_timer" || task == "api_service_mode" || task == "offline_local_app"
             || task == "realtime_stream_processor" || task == "physiological_monitor_app" || task !in TASKS
    ensures x in TaskProfile(task).featureIntents <==> Intends(task, x)
  {
  }

  lemma ProfilesIntend(task: string, x: string)
    ensures x in TaskProfile(task).featureIntents <==> Intends(task, x)
  {
    if task == "focus_stability_dashboard" || task == "behavior_anomaly_monitor" || task == "recovery_pattern_analysis"
       || task == "habit_tracker" || task == "sleep_monitor"
    {
      EarlierProfilesIntend(task, x);
    } else {
      LaterProfilesIntend(task, x);
    }
  }

  lemma DashboardsShip(task: string, f: string)
    requires task == "focus_stability_dashboard" || task == "behavior_anomaly_monitor" || task == "recovery_pattern_analysis"
    ensures f in Blueprint(task) <==> Ships(task, f)
  {
  }

  lemma TrackersShip(task: string, f: string)
    requires task == "habit_tracker" || task == "sleep_monitor" || task == "productivity_timer"
    ensures f in Blueprint(task) <==> Ships(task, f)
  {
  }

  lemma ServicesShip(task: string, f: string)
    requires task == "api_service_mode" || task == "offline_local_app"
    ensures f in Blueprint(task) <==> Ships(task, f)
  {
  }

  lemma StreamShips(task: string, f: string)
    requires task == "realtime_stream_processor"
    ensures f in Blueprint(task) <==> Ships(task, f)
  {
  }

  lemma MonitorShips(task: string, f: string)
    requires task == "physiological_monitor_app"
    ensures f in Blueprint(task) <==> Ships(task, f)
  {
  }

  lemma OthersShip(task: string, f: string)
    requires task !in TASKS
    ensures f in Blueprint(task) <==> Ships(task, f)
  {
  }

  lemma BlueprintsShip(task: string, f: string)
    ensures f in Blueprint(task) <==> Ships(task, f)
  {
    if task !in TASKS { OthersShip(task, f); }
    else if task == "focus_stability_dashboard" || task == "behavior_anomaly_monitor" || task == "recovery_pattern_analysis" {
      DashboardsShip(task, f);
    } else if task == "habit_tracker" || task == "sleep_monitor" || task == "productivity_timer" {
      TrackersShip(task, f);
    } else if task == "api_service_mode" || task == "offline_local_app" {
      ServicesShip(task, f);
    } else if task == "realtime_stream_processor" {
      StreamShips(task, f);
    } else {
      MonitorShips(task, f);
    }
  }

  const TASKS := {
    "focus_stability_dashboard", "behavior_anomaly_monitor", "recovery_pattern_analysis", "habit_tracker", "sleep_monitor",
    "productivity_timer", "api_service_mode", "offline_local_app", "realtime_stream_processor", "physiological_monitor_app"}
}

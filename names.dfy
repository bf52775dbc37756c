/** Event names and property keys the pipeline treats specially. */
module Names {
  const AppStart := "$AppStart"
  const AppEnd := "$AppEnd"
  const SignUp := "$SignUp"

  /** Suffix of the decorated names under which cross-timed events are registered. */
  const TimerSuffix := "_SATimer"
  /** Length of the decoration ending in TimerSuffix that a track call strips. */
  const TimerDecorationLength := 45

  /** Keys that are lifted out of the properties into top-level record fields. */
  const ProjectKey := "$project"
  const TokenKey := "$token"
  const TimeKey := "$time"

  const LibMethodKey := "$lib_method"
  const PluginVersionKey := "$lib_plugin_version"
  const DeviceIdKey := "$device_id"
  const AppVersionKey := "$app_version"
  const LibVersionKey := "$lib_version"
  const LibDetailKey := "$lib_detail"
  const EventTimeKey := "event_time"
  const CrashReasonKey := "app_crashed_reason"
}

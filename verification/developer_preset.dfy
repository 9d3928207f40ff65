/** Ready-made settings for common developer workflows (Caffeinator/Models/DeveloperPreset.swift). */
module DeveloperPresets {
  import opened CaffeinateModes
  import opened Durations

  datatype DeveloperPreset = DeveloperPreset(
    id: string, name: string, icon: string, duration: Duration, modes: set<Mode>, description: string)

  const All: seq<DeveloperPreset> := [
    DeveloperPreset("docker", "Docker Build", "shippingbox.fill", FourHours, {Idle, Disk}, "Container builds & pulls"),
    DeveloperPreset("xcode", "Xcode Build", "hammer.fill", TwoHours, {Idle, Disk}, "iOS/macOS compilation"),
    DeveloperPreset("npm", "npm/pnpm Install", "arrow.down.circle.fill", OneHour, {Idle}, "Package installation"),
    DeveloperPreset("deploy", "Deployment", "icloud.and.arrow.up.fill", Indefinite, {Idle, System}, "CI/CD & deployments"),
    DeveloperPreset("presentation", "Presentation", "play.rectangle.fill", Indefinite, {Display, Idle}, "Meetings & demos"),
    DeveloperPreset("ml", "ML Training", "brain", Indefinite, {Idle, System, Disk}, "Long-running computations")
  ]

  /**
   * Six presets with distinct identifiers; every one keeps the system from idle sleep, so its
   * mode set is never empty; the three build presets run 4, 2 and 1 hours, the rest indefinitely.
   */
  lemma AllTable()
    ensures |All| == 6
    ensures [All[0].id, All[1].id, All[2].id, All[3].id, All[4].id, All[5].id]
         == ["docker", "xcode", "npm", "deploy", "presentation", "ml"]
    ensures forall i, j :: 0 <= i < j < |All| ==> All[i].id != All[j].id
    ensures forall i :: 0 <= i < |All| ==> Idle in All[i].modes && All[i].modes != {}
    ensures [All[0].duration, All[1].duration, All[2].duration] == [FourHours, TwoHours, OneHour]
    ensures forall i :: 3 <= i < |All| ==> All[i].duration == Indefinite
  {
    forall i, j | 0 <= i < j < |All| ensures All[i].id != All[j].id {
      assert All[i].id[|All[i].id| - 1] != All[j].id[|All[j].id| - 1] || |All[i].id| != |All[j].id|;
    }
  }
}

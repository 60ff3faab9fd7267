/** An editing project: its tracks, its media library and its export
    settings (models/project.rs). The source declares a second copy of the
    export-settings type with the same variants and the same default; it is
    the `ExportModel.ExportSettings` type here. */
module ProjectModel {
  import opened Wrappers
  import opened Timeline
  import opened Clip
  import opened ExportModel

  const MainTrackName := "Main Track"

  class Project {
    var id: string
    var name: string
    var createdAt: int
    var modifiedAt: int
    var filePath: Option<string>
    var version: string
    var tracks: seq<Track>
    var mediaLibrary: seq<MediaClip>
    var exportSettings: ExportSettings
    var autoSaveEnabled: bool
    var lastAutoSave: Option<int>

    /** `Project::new`: an unsaved version-1.0.0 project with auto-save on,
        an empty library and one main track. `id` and `mainTrackId` are the
        fresh UUIDs and `created`/`modified` the two clock readings the source
        draws. */
    constructor (id: string, name: string, created: int, modified: int, mainTrackId: string)
      ensures this.id == id && this.name == name
      ensures createdAt == created && modifiedAt == modified
      ensures filePath.None? && version == "1.0.0"
      ensures |tracks| == 1 && tracks[0] == NewTrack(mainTrackId, MainTrackName, Main)
      ensures mediaLibrary == []
      ensures exportSettings == DefaultSettings()
      ensures autoSaveEnabled && lastAutoSave.None?
    {
      this.id := id;
      this.name := name;
      createdAt := created;
      modifiedAt := modified;
      filePath := None;
      version := "1.0.0";
      tracks := [];
      mediaLibrary := [];
      exportSettings := DefaultSettings();
      autoSaveEnabled := true;
      lastAutoSave := None;
      new;
      tracks := tracks + [NewTrack(mainTrackId, MainTrackName, Main)];
    }

    /** `mark_modified`: stamps the modification time and nothing else. */
    method MarkModified(now: int)
      modifies this`modifiedAt
      ensures modifiedAt == now
    {
      modifiedAt := now;
    }
  }
}

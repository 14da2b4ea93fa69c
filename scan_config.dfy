/** The scan configuration form: a scan type, a list of target folders,
    and checkbox lists of file types and automatic actions, turned into
    the create-session request. The confidence slider is left out. */
module ScanConfig {
  import opened Wrappers
  import opened Text
  import opened Seqs
  import opened Models
  import opened FormLists

  const ScanTypes: seq<string> := ["Full", "Quick", "Custom Folders", "Scheduled"]
  const FileTypes: seq<string> := ["Image", "Video", "Document", "Audio", "Archive", "Executable"]
  const AutoActions: seq<string> := ["Move", "Rename", "Backup", "Quarantine"]

  /** The request the Start button sends for a form state. */
  function BuildRequest(scanType: string, targetFolders: seq<string>, fileTypes: seq<string>,
                        autoActions: seq<string>): (r: CreateSessionRequest)
    ensures r.targetFolders == targetFolders && r.customSettings.None?
    ensures |r.fileTypes| == |fileTypes| && |r.autoActions| == |autoActions|
  {
    CreateSessionRequest(RequestLabel(scanType), targetFolders, LowerAll(fileTypes),
                         LowerAll(autoActions), None)
  }

  /** The folders go out as typed; the scan type, file types and actions
      go out lower-cased, in the order they were selected, with the scan
      type's spaces made underscores. */
  lemma BuildRequestSpec(scanType: string, targetFolders: seq<string>, fileTypes: seq<string>,
                         autoActions: seq<string>)
    ensures var r := BuildRequest(scanType, targetFolders, fileTypes, autoActions);
      |r.scanType| == |scanType|
      && (forall i :: 0 <= i < |scanType| ==>
            r.scanType[i] == if scanType[i] == ' ' then '_' else LowerChar(scanType[i]))
      && (forall i :: 0 <= i < |fileTypes| ==> r.fileTypes[i] == Lower(fileTypes[i]))
      && (forall i :: 0 <= i < |autoActions| ==> r.autoActions[i] == Lower(autoActions[i]))
  {
    RequestLabelSpec(scanType);
  }

  class ScanConfigForm {
    var selectedScanType: string
    var targetFolders: seq<string>
    var newFolder: string
    var selectedFileTypes: seq<string>
    var selectedAutoActions: seq<string>

    /** Checkbox lists never hold an item twice. */
    ghost predicate Valid()
      reads this
    {
      NoDuplicates(selectedFileTypes) && NoDuplicates(selectedAutoActions)
    }

    /** The form as it opens: a full scan of images and videos, no
        folders, no automatic actions. */
    constructor ()
      ensures Valid()
      ensures selectedScanType == "Full" && targetFolders == [] && newFolder == ""
      ensures selectedFileTypes == ["Image", "Video"] && selectedAutoActions == []
    {
      selectedScanType := "Full";
      targetFolders := [];
      newFolder := "";
      selectedFileTypes := ["Image", "Video"];
      selectedAutoActions := [];
    }

    method SelectScanType(scanType: string)
      modifies this
      ensures selectedScanType == scanType
      ensures targetFolders == old(targetFolders) && newFolder == old(newFolder)
      ensures selectedFileTypes == old(selectedFileTypes)
      ensures selectedAutoActions == old(selectedAutoActions)
    {
      selectedScanType := scanType;
    }

    method EditNewFolder(text: string)
      modifies this
      ensures newFolder == text
      ensures selectedScanType == old(selectedScanType) && targetFolders == old(targetFolders)
      ensures selectedFileTypes == old(selectedFileTypes)
      ensures selectedAutoActions == old(selectedAutoActions)
    {
      newFolder := text;
    }

    /** The add button: a non-blank entry is appended as typed and the
        field cleared; a blank one changes nothing. */
    method AddFolder()
      requires Valid()
      modifies this
      ensures Valid()
      ensures !IsBlank(old(newFolder)) ==> targetFolders == old(targetFolders) + [old(newFolder)] && newFolder == ""
      ensures IsBlank(old(newFolder)) ==> targetFolders == old(targetFolders) && newFolder == old(newFolder)
      ensures selectedScanType == old(selectedScanType)
      ensures selectedFileTypes == old(selectedFileTypes)
      ensures selectedAutoActions == old(selectedAutoActions)
    {
      if !IsBlank(newFolder) {
        targetFolders := targetFolders + [newFolder];
        newFolder := "";
      }
    }

    /** A folder's remove button: exactly that entry goes. The buttons
        exist only for listed entries. */
    method RemoveFolder(idx: nat)
      requires idx < |targetFolders|
      modifies this
      ensures targetFolders == old(targetFolders)[..idx] + old(targetFolders)[idx + 1..]
      ensures selectedScanType == old(selectedScanType) && newFolder == old(newFolder)
      ensures selectedFileTypes == old(selectedFileTypes)
      ensures selectedAutoActions == old(selectedAutoActions)
    {
      targetFolders := targetFolders[..idx] + targetFolders[idx + 1..];
    }

    /** A click on a file type's box. */
    method ToggleFileType(fileType: string)
      requires Valid()
      modifies this
      ensures Valid()
      ensures selectedFileTypes == Toggled(old(selectedFileTypes), fileType)
      ensures fileType in selectedFileTypes <==> fileType !in old(selectedFileTypes)
      ensures selectedScanType == old(selectedScanType) && targetFolders == old(targetFolders)
      ensures newFolder == old(newFolder) && selectedAutoActions == old(selectedAutoActions)
    {
      ToggledSpec(selectedFileTypes, fileType);
      var checked := fileType !in selectedFileTypes;
      if checked {
        selectedFileTypes := selectedFileTypes + [fileType];
      } else {
        selectedFileTypes := RemoveFirst(selectedFileTypes, fileType);
      }
    }

    /** A click on an automatic action's box. */
    method ToggleAutoAction(action: string)
      requires Valid()
      modifies this
      ensures Valid()
      ensures selectedAutoActions == Toggled(old(selectedAutoActions), action)
      ensures action in selectedAutoActions <==> action !in old(selectedAutoActions)
      ensures selectedScanType == old(selectedScanType) && targetFolders == old(targetFolders)
      ensures newFolder == old(newFolder) && selectedFileTypes == old(selectedFileTypes)
    {
      ToggledSpec(selectedAutoActions, action);
      var checked := action !in selectedAutoActions;
      if checked {
        selectedAutoActions := selectedAutoActions + [action];
      } else {
        selectedAutoActions := RemoveFirst(selectedAutoActions, action);
      }
    }

    /** The Start button's request: the folders as listed, the scan type
        as its request label, and the checked file types and actions
        lower-cased in the order they were checked. */
    method StartScan() returns (r: CreateSessionRequest)
      ensures r.targetFolders == targetFolders && r.customSettings.None?
      ensures |r.scanType| == |selectedScanType|
      ensures forall i :: 0 <= i < |selectedScanType| ==>
        r.scanType[i] == if selectedScanType[i] == ' ' then '_' else LowerChar(selectedScanType[i])
      ensures |r.fileTypes| == |selectedFileTypes|
      ensures forall i :: 0 <= i < |selectedFileTypes| ==> r.fileTypes[i] == Lower(selectedFileTypes[i])
      ensures |r.autoActions| == |selectedAutoActions|
      ensures forall i :: 0 <= i < |selectedAutoActions| ==> r.autoActions[i] == Lower(selectedAutoActions[i])
    {
      r := BuildRequest(selectedScanType, targetFolders, selectedFileTypes, selectedAutoActions);
      BuildRequestSpec(selectedScanType, targetFolders, selectedFileTypes, selectedAutoActions);
    }
  }
}

/** The page coordinator: whether the main app is shown instead of the
    landing view, the list of processed files handed up by the uploader,
    and the active tab. */
module Page {
  import Uploads

  datatype Tab = UploadTab | ChatTab

  /** What the page shows. */
  datatype View = Landing | UploadPanel | ChatPanel | NoDocuments

  /** The landing view until the app is opened; then the active tab's
      content, where the chat tab shows the chat only once there are files
      and otherwise the "No documents uploaded yet" notice. */
  function ViewOf(showMainApp: bool, files: seq<Uploads.UploadedFile>, tab: Tab): (v: View)
    ensures v == Landing <==> !showMainApp
    ensures v == UploadPanel <==> showMainApp && tab == UploadTab
    ensures v == ChatPanel <==> showMainApp && tab == ChatTab && |files| > 0
    ensures v == NoDocuments <==> showMainApp && tab == ChatTab && files == []
  {
    if !showMainApp then Landing
    else
      match tab
      case UploadTab => UploadPanel
      case ChatTab => if |files| > 0 then ChatPanel else NoDocuments
  }

  class StudyMatePage {
    var showMainApp: bool
    var uploadedFiles: seq<Uploads.UploadedFile>
    var activeTab: Tab

    function CurrentView(): View
      reads this
    {
      ViewOf(showMainApp, uploadedFiles, activeTab)
    }

    /** The initial state: landing view, no files, upload tab. */
    constructor ()
      ensures !showMainApp && uploadedFiles == [] && activeTab == UploadTab
      ensures CurrentView() == Landing
    {
      showMainApp := false;
      uploadedFiles := [];
      activeTab := UploadTab;
    }

    /** `handleGetStarted`: opens the main app and changes nothing else. */
    method GetStarted()
      modifies this
      ensures showMainApp
      ensures uploadedFiles == old(uploadedFiles) && activeTab == old(activeTab)
      ensures CurrentView() != Landing
    {
      showMainApp := true;
    }

    /** `handleFilesProcessed`: the list is replaced by `files`; a non-empty
        list routes to the chat tab, an empty one leaves the tab alone. */
    method FilesProcessed(files: seq<Uploads.UploadedFile>)
      modifies this
      ensures uploadedFiles == files && showMainApp == old(showMainApp)
      ensures activeTab == if |files| > 0 then ChatTab else old(activeTab)
      ensures showMainApp && |files| > 0 ==> CurrentView() == ChatPanel
    {
      uploadedFiles := files;
      if |files| > 0 {
        activeTab := ChatTab;
      }
    }

    /** The back button of the header: returns to the landing view. */
    method Back()
      modifies this
      ensures !showMainApp
      ensures uploadedFiles == old(uploadedFiles) && activeTab == old(activeTab)
      ensures CurrentView() == Landing
    {
      showMainApp := false;
    }

    /** The "Upload Documents" button of the empty chat tab. */
    method GoToUpload()
      modifies this
      ensures activeTab == UploadTab
      ensures showMainApp == old(showMainApp) && uploadedFiles == old(uploadedFiles)
      ensures old(showMainApp) ==> CurrentView() == UploadPanel
    {
      activeTab := UploadTab;
    }

    /** Clicking a tab trigger selects that tab. */
    method SelectTab(tab: Tab)
      modifies this
      ensures activeTab == tab
      ensures showMainApp == old(showMainApp) && uploadedFiles == old(uploadedFiles)
    {
      activeTab := tab;
    }
  }
}

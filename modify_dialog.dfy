/**
 * The state logic of the dialog that configures the clean ups run on save:
 * a working map of clean-up settings shared with the tab pages, a snapshot
 * of it taken at construction and on every Apply, the Apply button that is
 * enabled only while the two differ and the status is not an error, and the
 * dialog settings that restore the last tab and size.
 */
module CleanUpModifyDialog {
  import opened Wrappers

  // IDialogConstants
  const OK_ID: int := 0
  const CANCEL_ID: int := 1
  const CLIENT_ID: int := 1024
  const APPLY_BUTTON_ID: int := CLIENT_ID

  const DS_KEY_PREFERRED_WIDTH := "clean_up_save_particpant_modify_dialog.preferred_width"
  const DS_KEY_PREFERRED_HEIGHT := "clean_up_save_particpant_modify_dialog.preferred_height"
  const DS_KEY_PREFERRED_X := "clean_up_save_particpant_modify_dialog.preferred_x"
  const DS_KEY_PREFERRED_Y := "clean_up_save_particpant_modify_dialog.preferred_y"
  const DS_KEY_LAST_FOCUS := "clean_up_save_particpant_modify_dialog.last_focus"

  /** The five tab pages, by their page class; their titles are resource strings. */
  datatype TabPage = CodeStyleTab | MemberAccessesTab | UnnecessaryCodeTab | MissingCodeTab | CodeFormatingTab

  datatype Severity = Ok | Info | Warning | Error | Cancel

  datatype Status = Status(severity: Severity, message: string)

  /** StatusInfo.OK_STATUS. */
  const OkStatus := Status(Ok, "")

  /** IStatus.matches(IStatus.ERROR). */
  predicate MatchesError(s: Status) {
    s.severity == Error
  }

  datatype Point = Point(x: int, y: int)

  /**
   * hasChanges as the source means it: some key of the working map has no
   * value in the original map or a different one. Keys only in the
   * original map do not count.
   */
  ghost predicate Changed(working: map<string, string>, original: map<string, string>) {
    exists key :: key in working && (key !in original || working[key] != original[key])
  }

  /**
   * A stored tab index fitted to the number of pages: a negative index gives
   * the first page, one past the end the last page. With no pages the
   * result is -1, as the source's two comparisons give.
   */
  function Clamp(index: int, count: nat): (r: int)
    ensures count > 0 ==> 0 <= r < count
    ensures 0 <= index < count ==> r == index
    ensures index < 0 && count > 0 ==> r == 0
    ensures index >= count ==> r == count - 1
    ensures count == 0 ==> r == -1
  {
    if index < 0 then (if count == 0 then -1 else 0)
    else if index > count - 1 then count - 1
    else index
  }

  /**
   * The dialog. Dialog settings map a key to the integer stored under it; a
   * key is absent when nothing is stored or the stored text is not a number,
   * the two cases in which getInt throws NumberFormatException.
   */
  class ModifyDialog {
    var workingValues: map<string, string>
    var originalValues: map<string, string>
    var tabPages: seq<TabPage>
    var dialogSettings: map<string, int>
    /** The status last given to updateStatus of StatusDialog, if any. */
    var lastStatus: Option<Status>
    /** Whether the button bar, with the OK, Cancel and Apply buttons, exists. */
    var buttonBarCreated: bool
    var okEnabled: bool
    var applyEnabled: bool
    var selectedTab: int
    var returnCode: Option<int>

    constructor (settings: map<string, string>, dialogSettings: map<string, int>)
      ensures workingValues == settings && originalValues == settings
      ensures !Changed(workingValues, originalValues)
      ensures this.dialogSettings == dialogSettings && tabPages == []
      ensures lastStatus == None && !buttonBarCreated && returnCode == None
    {
      workingValues, originalValues := settings, settings;
      this.dialogSettings := dialogSettings;
      tabPages, lastStatus := [], None;
      buttonBarCreated, okEnabled, applyEnabled := false, false, false;
      selectedTab, returnCode := 0, None;
    }

    /** hasChanges: the loop over the keys of the working map. */
    method HasChanges() returns (b: bool)
      ensures b == Changed(workingValues, originalValues)
    {
      var keys := workingValues.Keys;
      while keys != {}
        invariant keys <= workingValues.Keys
        invariant forall key :: key in workingValues && key !in keys ==> key in originalValues && originalValues[key] == workingValues[key]
        decreases keys
      {
        var key :| key in keys;
        if key !in originalValues || workingValues[key] != originalValues[key] {
          return true;
        }
        keys := keys - {key};
      }
      return false;
    }

    /**
     * updateButtonsEnableState: StatusDialog enables OK unless the status is
     * an error; Apply, once it exists, is enabled iff there are changes and
     * the status is not an error.
     */
    method UpdateButtonsEnableState(status: Status)
      modifies this`okEnabled, this`applyEnabled
      ensures okEnabled == !MatchesError(status)
      ensures buttonBarCreated ==> applyEnabled == (Changed(workingValues, originalValues) && !MatchesError(status))
      ensures !buttonBarCreated ==> applyEnabled == old(applyEnabled)
    {
      okEnabled := !MatchesError(status);
      if buttonBarCreated {
        var changed := HasChanges();
        applyEnabled := changed && !MatchesError(status);
      }
    }

    /**
     * updateStatus: a null status is taken as OK_STATUS. StatusDialog records
     * it and, once the buttons exist, updates their enablement.
     */
    method UpdateStatus(status: Option<Status>)
      modifies this`lastStatus, this`okEnabled, this`applyEnabled
      ensures lastStatus == Some(if status.None? then OkStatus else status.value)
      ensures buttonBarCreated ==> okEnabled == !MatchesError(lastStatus.value)
      ensures buttonBarCreated ==> applyEnabled == (Changed(workingValues, originalValues) && !MatchesError(lastStatus.value))
      ensures !buttonBarCreated ==> okEnabled == old(okEnabled) && applyEnabled == old(applyEnabled)
    {
      var effective := if status.None? then OkStatus else status.value;
      lastStatus := Some(effective);
      if buttonBarCreated {
        UpdateButtonsEnableState(effective);
      }
    }

    /** valuesModified: a tab page changed the working values. */
    method ValuesModified()
      modifies this`lastStatus, this`okEnabled, this`applyEnabled
      ensures lastStatus == Some(OkStatus)
      ensures buttonBarCreated ==> okEnabled && applyEnabled == Changed(workingValues, originalValues)
      ensures !buttonBarCreated ==> okEnabled == old(okEnabled) && applyEnabled == old(applyEnabled)
    {
      UpdateStatus(Some(OkStatus));
    }

    /** A tab page writes a setting into the shared working map and notifies the dialog. */
    method TabPageModifies(key: string, value: string)
      modifies this`workingValues, this`lastStatus, this`okEnabled, this`applyEnabled
      ensures workingValues == old(workingValues)[key := value] && originalValues == old(originalValues)
      ensures lastStatus == Some(OkStatus)
      ensures buttonBarCreated ==> okEnabled && applyEnabled == Changed(workingValues, originalValues)
      ensures !buttonBarCreated ==> okEnabled == old(okEnabled) && applyEnabled == old(applyEnabled)
    {
      workingValues := workingValues[key := value];
      ValuesModified();
    }

    /** applyPressed: the working values become the new original values. */
    method ApplyPressed()
      modifies this`originalValues, this`lastStatus, this`okEnabled, this`applyEnabled
      ensures workingValues == old(workingValues) && originalValues == workingValues
      ensures !Changed(workingValues, originalValues)
      ensures lastStatus == Some(OkStatus)
      ensures buttonBarCreated ==> okEnabled && !applyEnabled
      ensures !buttonBarCreated ==> okEnabled == old(okEnabled) && applyEnabled == old(applyEnabled)
    {
      originalValues := workingValues;
      UpdateStatus(Some(OkStatus));
    }

    /** okPressed: applies, then StatusDialog sets the OK return code and closes. */
    method OkPressed()
      modifies this`originalValues, this`lastStatus, this`okEnabled, this`applyEnabled, this`returnCode
      ensures workingValues == old(workingValues) && originalValues == workingValues
      ensures lastStatus == Some(OkStatus) && returnCode == Some(OK_ID)
      ensures buttonBarCreated ==> okEnabled && !applyEnabled
      ensures !buttonBarCreated ==> okEnabled == old(okEnabled) && applyEnabled == old(applyEnabled)
    {
      ApplyPressed();
      returnCode := Some(OK_ID);
    }

    /**
     * buttonPressed: Apply applies; any other id goes to Dialog, which
     * dispatches OK to okPressed and Cancel to cancelPressed and ignores the
     * rest.
     */
    method ButtonPressed(buttonId: int)
      modifies this`originalValues, this`lastStatus, this`okEnabled, this`applyEnabled, this`returnCode
      ensures workingValues == old(workingValues)
      ensures buttonId == APPLY_BUTTON_ID || buttonId == OK_ID ==> originalValues == workingValues && lastStatus == Some(OkStatus)
      ensures buttonId != APPLY_BUTTON_ID && buttonId != OK_ID ==> originalValues == old(originalValues) && lastStatus == old(lastStatus)
      ensures (buttonId == APPLY_BUTTON_ID || buttonId == OK_ID) && buttonBarCreated ==> okEnabled && !applyEnabled
      ensures (buttonId != APPLY_BUTTON_ID && buttonId != OK_ID) || !buttonBarCreated ==>
                okEnabled == old(okEnabled) && applyEnabled == old(applyEnabled)
      ensures returnCode == if buttonId == OK_ID then Some(OK_ID) else if buttonId == CANCEL_ID then Some(CANCEL_ID) else old(returnCode)
    {
      if buttonId == APPLY_BUTTON_ID {
        ApplyPressed();
      } else if buttonId == OK_ID {
        OkPressed();
      } else if buttonId == CANCEL_ID {
        returnCode := Some(CANCEL_ID);
      }
    }

    method AddTabPage(page: TabPage)
      modifies this`tabPages
      ensures tabPages == old(tabPages) + [page]
    {
      tabPages := tabPages + [page];
    }

    /** createDialogArea: the five tab pages, then updateStatus(OK_STATUS). */
    method CreateDialogArea()
      modifies this`tabPages, this`lastStatus, this`okEnabled, this`applyEnabled
      ensures tabPages == old(tabPages) + [CodeStyleTab, MemberAccessesTab, UnnecessaryCodeTab, MissingCodeTab, CodeFormatingTab]
      ensures lastStatus == Some(OkStatus)
      ensures buttonBarCreated ==> okEnabled && applyEnabled == Changed(workingValues, originalValues)
      ensures !buttonBarCreated ==> okEnabled == old(okEnabled) && applyEnabled == old(applyEnabled)
    {
      AddTabPage(CodeStyleTab);
      AddTabPage(MemberAccessesTab);
      AddTabPage(UnnecessaryCodeTab);
      AddTabPage(MissingCodeTab);
      AddTabPage(CodeFormatingTab);
      UpdateStatus(Some(OkStatus));
    }

    /** createButtonsForButtonBar: Apply starts disabled; StatusDialog adds OK and Cancel. */
    method CreateButtonsForButtonBar()
      modifies this`buttonBarCreated, this`okEnabled, this`applyEnabled
      ensures buttonBarCreated && okEnabled && !applyEnabled
    {
      applyEnabled := false;
      okEnabled := true;
      buttonBarCreated := true;
    }

    /**
     * The tab index create restores: the stored index clamped to the pages,
     * or 0 when none can be read.
     */
    method RestoredFocus() returns (lastFocusNr: int)
      ensures lastFocusNr == if DS_KEY_LAST_FOCUS in dialogSettings then Clamp(dialogSettings[DS_KEY_LAST_FOCUS], |tabPages|) else 0
      ensures DS_KEY_LAST_FOCUS !in dialogSettings ==> lastFocusNr == 0
      ensures |tabPages| > 0 ==> 0 <= lastFocusNr < |tabPages|
    {
      lastFocusNr := 0;
      if DS_KEY_LAST_FOCUS in dialogSettings {
        lastFocusNr := dialogSettings[DS_KEY_LAST_FOCUS];
        if lastFocusNr < 0 {
          lastFocusNr := 0;
        }
        if lastFocusNr > |tabPages| - 1 {
          lastFocusNr := |tabPages| - 1;
        }
      }
    }

    /** create: builds the dialog area and the button bar, then selects the restored tab. */
    method Create()
      modifies this
      ensures tabPages == old(tabPages) + [CodeStyleTab, MemberAccessesTab, UnnecessaryCodeTab, MissingCodeTab, CodeFormatingTab]
      ensures buttonBarCreated && okEnabled && !applyEnabled
      ensures lastStatus == Some(OkStatus)
      ensures selectedTab == if DS_KEY_LAST_FOCUS in dialogSettings then Clamp(dialogSettings[DS_KEY_LAST_FOCUS], |tabPages|) else 0
      ensures 0 <= selectedTab < |tabPages|
      ensures workingValues == old(workingValues) && originalValues == old(originalValues)
      ensures dialogSettings == old(dialogSettings) && returnCode == old(returnCode)
    {
      CreateDialogArea();
      CreateButtonsForButtonBar();
      var lastFocusNr := RestoredFocus();
      selectedTab := lastFocusNr;
    }

    /** The selection listener of the tab folder: remembers the selected page's index. */
    method TabSelected(index: nat)
      requires index < |tabPages|
      modifies this`dialogSettings, this`selectedTab
      ensures dialogSettings == old(dialogSettings)[DS_KEY_LAST_FOCUS := index] && selectedTab == index
    {
      dialogSettings := dialogSettings[DS_KEY_LAST_FOCUS := index];
      selectedTab := index;
    }

    /**
     * getInitialSize as written: the stored width unless the computed one is
     * larger; the stored height unless the computed height is larger, in
     * which case the computed WIDTH; the computed size when either setting
     * cannot be read.
     */
    method GetInitialSize(initialSize: Point) returns (p: Point)
      ensures DS_KEY_PREFERRED_WIDTH !in dialogSettings || DS_KEY_PREFERRED_HEIGHT !in dialogSettings ==> p == initialSize
      ensures DS_KEY_PREFERRED_WIDTH in dialogSettings && DS_KEY_PREFERRED_HEIGHT in dialogSettings ==>
                p.x == Max(dialogSettings[DS_KEY_PREFERRED_WIDTH], initialSize.x) &&
                p.y == (if initialSize.y > dialogSettings[DS_KEY_PREFERRED_HEIGHT] then initialSize.x else dialogSettings[DS_KEY_PREFERRED_HEIGHT])
    {
      if DS_KEY_PREFERRED_WIDTH !in dialogSettings {
        return initialSize;
      }
      var lastWidth := dialogSettings[DS_KEY_PREFERRED_WIDTH];
      if initialSize.x > lastWidth {
        lastWidth := initialSize.x;
      }
      if DS_KEY_PREFERRED_HEIGHT !in dialogSettings {
        return initialSize;
      }
      var lastHeight := dialogSettings[DS_KEY_PREFERRED_HEIGHT];
      if initialSize.y > lastHeight {
        lastHeight := initialSize.x;
      }
      return Point(lastWidth, lastHeight);
    }

    /**
     * getInitialSize as evidently intended: each stored dimension, unless the
     * computed one is larger, so the dialog is never smaller than its
     * computed size.
     */
    method GetInitialSizeIntended(initialSize: Point) returns (p: Point)
      ensures p.x >= initialSize.x && p.y >= initialSize.y
      ensures DS_KEY_PREFERRED_WIDTH !in dialogSettings || DS_KEY_PREFERRED_HEIGHT !in dialogSettings ==> p == initialSize
      ensures DS_KEY_PREFERRED_WIDTH in dialogSettings && DS_KEY_PREFERRED_HEIGHT in dialogSettings ==>
                p == Point(Max(dialogSettings[DS_KEY_PREFERRED_WIDTH], initialSize.x), Max(dialogSettings[DS_KEY_PREFERRED_HEIGHT], initialSize.y))
    {
      if DS_KEY_PREFERRED_WIDTH !in dialogSettings {
        return initialSize;
      }
      var lastWidth := dialogSettings[DS_KEY_PREFERRED_WIDTH];
      if initialSize.x > lastWidth {
        lastWidth := initialSize.x;
      }
      if DS_KEY_PREFERRED_HEIGHT !in dialogSettings {
        return initialSize;
      }
      var lastHeight := dialogSettings[DS_KEY_PREFERRED_HEIGHT];
      if initialSize.y > lastHeight {
        lastHeight := initialSize.y;
      }
      return Point(lastWidth, lastHeight);
    }
  }

  /**
   * A stored size of 50 by 200 and a computed size of 100 by 300: as written,
   * getInitialSize opens the dialog 100 high, smaller than the 300 it needs.
   */
  method InitialSizeShrinksHeight() returns (p: Point, intended: Point)
    ensures p == Point(100, 100) && p.y < 300
    ensures intended == Point(100, 300)
  {
    var dialog := new ModifyDialog(map[], map[DS_KEY_PREFERRED_WIDTH := 50, DS_KEY_PREFERRED_HEIGHT := 200]);
    p := dialog.GetInitialSize(Point(100, 300));
    intended := dialog.GetInitialSizeIntended(Point(100, 300));
  }
}

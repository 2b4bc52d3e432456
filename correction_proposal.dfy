/**
 * A correction proposal that changes one compilation unit: its change is
 * built once, on first use, by connecting the unit's file buffer, letting
 * the proposal add its edits and the import edit, and disconnecting again;
 * its additional information is the preview of the changed document.
 */
module CorrectionProposal {
  import opened Wrappers
  import opened PreviewDocument
  import opened ProposalPreview

  /** A compilation unit, known by its workspace path. */
  datatype CompilationUnit = CompilationUnit(path: string)

  /** A child of the change's root edit: one the proposal adds, or the edit of an import rewrite. */
  datatype Edit = ProposalEdit(id: nat) | ImportEdit(added: seq<string>, removed: seq<string>)

  /** A compilation unit change: the unit and its root edit, which may be absent. */
  datatype CompilationUnitChange = CompilationUnitChange(unit: CompilationUnit, root: Option<seq<Edit>>)

  // ----- the file buffer manager, as the log of its connect and disconnect calls -----

  datatype BufferEvent = Connected(path: string) | Disconnected(path: string)

  function Delta(ev: BufferEvent, path: string): int {
    match ev
    case Connected(p) => if p == path then 1 else 0
    case Disconnected(p) => if p == path then -1 else 0
  }

  /** How many more connects than disconnects the log has for a path. */
  function Depth(events: seq<BufferEvent>, path: string): int {
    if events == [] then 0 else Depth(events[..|events| - 1], path) + Delta(events[|events| - 1], path)
  }

  ghost predicate Balanced(events: seq<BufferEvent>) {
    forall path :: Depth(events, path) == 0
  }

  /** A connect followed by a disconnect of the same path changes no path's depth. */
  lemma ConnectDisconnectBalanced(events: seq<BufferEvent>, path: string, q: string)
    ensures Depth(events + [Connected(path), Disconnected(path)], q) == Depth(events, q)
  {
    var both := events + [Connected(path), Disconnected(path)];
    assert both[..|both| - 1] == events + [Connected(path)];
    assert (events + [Connected(path)])[..|events|] == events;
  }

  lemma BalancedPreserved(events: seq<BufferEvent>, path: string)
    requires Balanced(events)
    ensures Balanced(events + [Connected(path), Disconnected(path)])
  {
    forall q {
      ConnectDisconnectBalanced(events, path, q);
    }
  }

  class TextFileBufferManager {
    var events: seq<BufferEvent>

    constructor ()
      ensures events == []
    {
      events := [];
    }

    method Connect(path: string)
      modifies this`events
      ensures events == old(events) + [Connected(path)]
    {
      events := events + [Connected(path)];
    }

    method Disconnect(path: string)
      modifies this`events
      ensures events == old(events) + [Disconnected(path)]
    {
      events := events + [Disconnected(path)];
    }
  }

  // ----- the import rewrite -----

  /** The imports a rewrite of a compilation unit adds and removes. */
  class ImportRewrite {
    const unit: CompilationUnit
    var addedImports: seq<string>
    var removedImports: seq<string>

    constructor (unit: CompilationUnit)
      ensures this.unit == unit && addedImports == [] && removedImports == []
    {
      this.unit := unit;
      addedImports, removedImports := [], [];
    }

    predicate IsEmpty()
      reads this
    {
      addedImports == [] && removedImports == []
    }

    function CreateEdit(): Edit
      reads this
    {
      ImportEdit(addedImports, removedImports)
    }
  }

  /**
   * What a proposal's addEdits does when it runs: the edits it adds to the
   * root edit, and whether it then throws a CoreException.
   */
  datatype AddEditsOutcome = AddEditsOutcome(edits: seq<Edit>, throws: bool)

  /** The addEdits of this class adds nothing and does not throw. */
  const DefaultAddEdits := AddEditsOutcome([], false)

  // ----- the proposal -----

  class CUCorrectionProposal {
    const name: string
    const unit: CompilationUnit
    /** Whether the change has a root edit. */
    const hasRootEdit: bool
    /** The children of the root edit. */
    var rootChildren: seq<Edit>
    var importRewrite: ImportRewrite?
    var isInitialized: bool

    /** A proposal whose change starts with an empty root edit. */
    constructor (name: string, cu: CompilationUnit)
      ensures this.name == name && unit == cu && hasRootEdit && rootChildren == []
      ensures importRewrite == null && !isInitialized
    {
      this.name, unit, hasRootEdit := name, cu, true;
      rootChildren, importRewrite, isInitialized := [], null, false;
    }

    /** A proposal for an existing change. */
    constructor FromChange(name: string, change: CompilationUnitChange)
      ensures this.name == name && unit == change.unit && hasRootEdit == change.root.Some?
      ensures rootChildren == (if change.root.Some? then change.root.value else [])
      ensures importRewrite == null && !isInitialized
    {
      this.name, unit, hasRootEdit := name, change.unit, change.root.Some?;
      rootChildren := if change.root.Some? then change.root.value else [];
      importRewrite, isInitialized := null, false;
    }

    /** Whether initialization asks the import rewrite for its edit: after addEdits returns, for a non-empty rewrite. */
    predicate WantsImportEdit(hook: AddEditsOutcome)
      reads this, importRewrite
    {
      !hook.throws && importRewrite != null && !importRewrite.IsEmpty()
    }

    /**
     * The import edit appended after the proposal's own edits: only for a
     * non-empty rewrite whose createEdit does not throw.
     */
    function ImportChild(hook: AddEditsOutcome, createEditThrows: bool): (children: seq<Edit>)
      reads this, importRewrite
      ensures |children| <= 1
      ensures children != [] <==> WantsImportEdit(hook) && !createEditThrows
      ensures children != [] ==> children[0] == ImportEdit(importRewrite.addedImports, importRewrite.removedImports)
    {
      if WantsImportEdit(hook) && !createEditThrows then [importRewrite.CreateEdit()] else []
    }

    /**
     * The effect of initializeCompilationUnitChange: the proposal is marked
     * initialized; a second call, or a change without root edit, does
     * nothing else; otherwise the buffer is connected and disconnected once,
     * whether or not addEdits or the import rewrite's createEdit throws,
     * and the root edit gains the edits of addEdits and then, if neither
     * threw, the import edit. Either exception is thrown on to the caller.
     */
    twostate predicate InitializedBy(manager: TextFileBufferManager, hook: AddEditsOutcome, createEditThrows: bool, thrown: bool)
      reads this, manager, importRewrite
    {
      && isInitialized
      && importRewrite == old(importRewrite)
      && if old(isInitialized) || !hasRootEdit then
           && !thrown
           && rootChildren == old(rootChildren)
           && manager.events == old(manager.events)
         else
           && thrown == (hook.throws || (WantsImportEdit(hook) && createEditThrows))
           && manager.events == old(manager.events) + [Connected(unit.path), Disconnected(unit.path)]
           && rootChildren == old(rootChildren) + hook.edits + ImportChild(hook, createEditThrows)
    }

    /** The addEdits hook: appends the outcome's edits, then reports whether it throws. */
    method AddEdits(hook: AddEditsOutcome) returns (thrown: bool)
      modifies this`rootChildren
      ensures rootChildren == old(rootChildren) + hook.edits && thrown == hook.throws
    {
      rootChildren := rootChildren + hook.edits;
      thrown := hook.throws;
    }

    /**
     * initializeCompilationUnitChange; `createEditThrows` says whether the
     * import rewrite's createEdit would throw a CoreException.
     */
    method InitializeCompilationUnitChange(manager: TextFileBufferManager, hook: AddEditsOutcome, createEditThrows: bool)
      returns (thrown: bool)
      modifies this`isInitialized, this`rootChildren, manager`events
      ensures InitializedBy(manager, hook, createEditThrows, thrown)
      ensures Balanced(old(manager.events)) ==> Balanced(manager.events)
    {
      thrown := false;
      if isInitialized {
        return;
      }
      isInitialized := true;
      if hasRootEdit {
        var path := unit.path;
        manager.Connect(path);
        thrown := AddEdits(hook);
        if !thrown && importRewrite != null && !importRewrite.IsEmpty() {
          if createEditThrows {
            thrown := true;
          } else {
            rootChildren := rootChildren + [importRewrite.CreateEdit()];
          }
        }
        manager.Disconnect(path);
        if Balanced(old(manager.events)) {
          BalancedPreserved(old(manager.events), path);
        }
      }
    }

    /**
     * getImportRewrite: created on first use, then the same instance until
     * it is replaced. `creationThrows` says whether creating the rewrite,
     * which reads the compilation unit, would throw a CoreException; then
     * nothing is stored and the exception (`r == null`) reaches the caller.
     */
    method GetImportRewrite(creationThrows: bool) returns (r: ImportRewrite?)
      modifies this`importRewrite
      ensures importRewrite == r
      ensures old(importRewrite) != null ==> r == old(importRewrite)
      ensures old(importRewrite) == null && creationThrows ==> r == null
      ensures old(importRewrite) == null && !creationThrows ==> r != null && fresh(r) && r.unit == unit && r.IsEmpty()
    {
      if importRewrite == null && !creationThrows {
        importRewrite := new ImportRewrite(unit);
      }
      r := importRewrite;
    }

    method SetImportRewrite(rewrite: ImportRewrite?)
      modifies this`importRewrite
      ensures importRewrite == rewrite
    {
      importRewrite := rewrite;
    }

    /**
     * getAdditionalProposalInfo: initializes the change, then previews the
     * differences between the preview document and the current content.
     * A CoreException from the initialization, or from reading the preview
     * document or the current content (`contentThrows`), leaves the preview
     * empty; a BadLocationException keeps what was appended before it.
     */
    method GetAdditionalProposalInfo(manager: TextFileBufferManager, hook: AddEditsOutcome, createEditThrows: bool,
                                     contentThrows: bool, preview: Document, diffs: seq<Difference>) returns (info: string)
      requires WellFormed(preview)
      modifies this`isInitialized, this`rootChildren, manager`events
      ensures var initThrows := !old(isInitialized) && hasRootEdit && (hook.throws || (WantsImportEdit(hook) && createEditThrows));
              && InitializedBy(manager, hook, createEditThrows, initThrows)
              && info == if initThrows || contentThrows then "" else Render(Highlighted(preview, diffs).chunks)
    {
      var buf: seq<Chunk> := [];
      var thrown := InitializeCompilationUnitChange(manager, hook, createEditThrows);
      if !thrown && !contentThrows {
        buf := PreviewDifferences(preview, diffs);
      }
      info := Render(buf);
    }
  }

  /**
   * The addEdits of this class adds nothing and does not throw, so for a
   * proposal without imports to add, initialization leaves the root edit as
   * it was and throws nothing.
   */
  twostate lemma DefaultHookKeepsRoot(p: CUCorrectionProposal, manager: TextFileBufferManager, createEditThrows: bool, thrown: bool)
    requires p.InitializedBy(manager, DefaultAddEdits, createEditThrows, thrown)
    requires p.importRewrite == null || p.importRewrite.IsEmpty()
    ensures p.rootChildren == old(p.rootChildren) && !thrown
  {
    assert DefaultAddEdits.edits == [];
  }
}

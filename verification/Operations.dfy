/** The mutation allowlist and the confirmable actions. */
module Operations {
  import Encoding

  datatype OpSpec = OpSpec(resourceField: string, confirm: bool, altField: string)

  function Plain(field: string): OpSpec { OpSpec(field, false, "") }
  function Destructive(field: string, alt: string): OpSpec { OpSpec(field, true, alt) }
  function Agent(): OpSpec { OpSpec("pane_id", false, "target") }

  const OPERATIONS: map<string, OpSpec> := map[
    "workspace.create" := Plain(""),
    "workspace.focus" := Plain("workspace_id"),
    "workspace.rename" := Plain("workspace_id"),
    "workspace.close" := Destructive("workspace_id", ""),
    "tab.create" := Plain(""),
    "tab.focus" := Plain("tab_id"),
    "tab.rename" := Plain("tab_id"),
    "tab.move" := Plain("tab_id"),
    "tab.close" := Destructive("tab_id", ""),
    "pane.focus" := Plain("pane_id"),
    "pane.split" := Plain("pane_id"),
    "pane.resize" := Plain("pane_id"),
    "pane.zoom" := Plain("pane_id"),
    "pane.swap" := Plain("pane_id"),
    "pane.move" := Plain("pane_id"),
    "pane.rename" := Plain("pane_id"),
    "pane.close" := Destructive("pane_id", ""),
    "agent.focus" := Agent(),
    "agent.prompt" := Agent(),
    "agent.send_keys" := Agent(),
    "agent.rename" := Agent(),
    "agent.start" := Plain("pane_id"),
    "worktree.create" := Plain(""),
    "worktree.open" := Plain(""),
    "worktree.remove" := Destructive("worktree_id", "workspace_id"),
    "worktree.remove_force" := Destructive("worktree_id", "workspace_id")
  ]

  datatype ConfirmSpec = ConfirmSpec(resourceField: string, altField: string)

  const TAKEOVER := "terminal.takeover"

  const CONFIRMABLE: map<string, ConfirmSpec> := map[
    "workspace.close" := ConfirmSpec("workspace_id", ""),
    "tab.close" := ConfirmSpec("tab_id", ""),
    "pane.close" := ConfirmSpec("pane_id", ""),
    "worktree.remove" := ConfirmSpec("worktree_id", "workspace_id"),
    "worktree.remove_force" := ConfirmSpec("worktree_id", "workspace_id"),
    "terminal.takeover" := ConfirmSpec("pane_id", "")
  ]

  predicate NeedsConfirmation(op: string) { op in OPERATIONS && OPERATIONS[op].confirm }

  /** The two tables agree: exactly the destructive operations can be confirmed, on the same fields. */
  lemma TablesAgree(op: string)
    ensures NeedsConfirmation(op) <==> op in CONFIRMABLE && op != TAKEOVER
    ensures NeedsConfirmation(op) ==>
              CONFIRMABLE[op] == ConfirmSpec(OPERATIONS[op].resourceField, OPERATIONS[op].altField)
    ensures op in CONFIRMABLE ==> CONFIRMABLE[op].resourceField != ""
    ensures TAKEOVER !in OPERATIONS
  {
  }

  /** No operation name holds the separator of keys and fingerprints. */
  lemma OperationNamesArePlain(op: string)
    requires op in OPERATIONS
    ensures Encoding.NUL !in op
  {
    if op[0] == 'w' {
      WorkNamesArePlain(op);
    } else if op[0] == 'p' {
      PaneNamesArePlain(op);
    } else {
      OtherNamesArePlain(op);
    }
  }

  lemma WorkNamesArePlain(op: string)
    requires op in {"workspace.create", "workspace.focus", "workspace.rename", "workspace.close", "worktree.create",
                    "worktree.open", "worktree.remove", "worktree.remove_force"}
    ensures Encoding.NUL !in op
  {
  }

  lemma PaneNamesArePlain(op: string)
    requires op in {"pane.focus", "pane.split", "pane.resize", "pane.zoom", "pane.swap", "pane.move", "pane.rename",
                    "pane.close"}
    ensures Encoding.NUL !in op
  {
  }

  lemma OtherNamesArePlain(op: string)
    requires op in {"tab.create", "tab.focus", "tab.rename", "tab.move", "tab.close", "agent.focus", "agent.prompt",
                    "agent.send_keys", "agent.rename", "agent.start"}
    ensures Encoding.NUL !in op
  {
  }
}

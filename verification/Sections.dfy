/** recv_state_ and send_state_: at most one thread owns the section; a thread that finds it owned
    leaves `ready` behind, which the owner answers by another pass. */
module Sections {
  datatype Section = Section(already: bool, ready: bool)

  const Free: Section := Section(false, false)

  /** The test on entry. */
  function Claimed(section: Section): Section {
    if section.already then section.(ready := true) else Section(true, false)
  }

  /** The test on leaving; `up` gives the section up whatever `ready` says. */
  function Given(section: Section, up: bool): Section {
    if !section.ready || up then section.(already := false) else section.(ready := false)
  }
}

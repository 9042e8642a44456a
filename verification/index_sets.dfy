/** Index-set filters shared by several model-building modules. */
module IndexSets {

  /**
   * The (project, timepoint) pairs of `projectTimepoints` whose project is
   * in `projects`: how a module narrows PROJECT_OPERATIONAL_TIMEPOINTS to
   * the projects it is responsible for.
   */
  function RestrictToProjects(projectTimepoints: set<(string, int)>, projects: set<string>): (r: set<(string, int)>)
    ensures r <= projectTimepoints
    ensures forall g, tmp :: (g, tmp) in r <==> (g, tmp) in projectTimepoints && g in projects
  {
    set pt | pt in projectTimepoints && pt.0 in projects
  }
}

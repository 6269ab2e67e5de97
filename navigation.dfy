/** What a route element decides to show: the loading view, a `<Navigate>`
    redirect, or its child. Shared by the guard and the dispatcher. */
module Navigation {
  import opened Wrappers

  /** `Redirect(to, replace, from)` is `<Navigate to={to} replace state={{from}}/>`;
      `from` is `None` when no state is passed. */
  datatype Decision = ShowLoading | Redirect(to: string, replace: bool, from: Option<string>) | RenderChild
}

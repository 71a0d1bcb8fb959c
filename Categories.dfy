/** The five task categories the generators and categorizers use, and the
    label test they share. */
module Categories {
  const DEVOPS := "DevOps"
  const ANALYTICS := "Аналитика"
  const BACKEND := "Backend"
  const FRONTEND := "Frontend"
  const INFRASTRUCTURE := "Инфраструктура"

  /** Category names, in the order the rules test them. */
  const CATEGORIES: seq<string> := [DEVOPS, ANALYTICS, BACKEND, FRONTEND, INFRASTRUCTURE]

  /** `labels.some(label => keys.includes(label))`. */
  predicate SomeLabelIn(labels: seq<string>, keys: seq<string>) {
    exists i :: 0 <= i < |labels| && labels[i] in keys
  }
}

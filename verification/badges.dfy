/**
  The badge colour tables of the issue pages. The status table is the same
  in the citizen issue list, the citizen dashboard and the authority issue
  list; the priority table is shared by the two citizen pages, while the
  authority list adds a border class to each entry. Every table is a total
  function of an arbitrary string with a gray default.
 */
module Badges {

  const Gray := "bg-gray-100 text-gray-800"
  const GrayBordered := "bg-gray-100 text-gray-800 border-gray-200"

  /** Status badge classes; `closed` deliberately shares the gray default. */
  function StatusColor(status: string): (r: string)
    ensures r == Gray <==> status !in {"pending", "in-progress", "resolved"}
  {
    match status
    case "pending" => "bg-yellow-100 text-yellow-800"
    case "in-progress" => "bg-blue-100 text-blue-800"
    case "resolved" => "bg-green-100 text-green-800"
    case "closed" => Gray
    case _ => Gray
  }

  /** Two statuses share a badge exactly when they are equal or both fall back to gray. */
  lemma StatusColorSeparates(s: string, t: string)
    ensures StatusColor(s) == StatusColor(t) <==>
      s == t || (s !in {"pending", "in-progress", "resolved"} && t !in {"pending", "in-progress", "resolved"})
  {
  }

  /** Priority badge classes of the citizen pages. */
  function PriorityColor(priority: string): (r: string)
    ensures r == Gray <==> priority !in {"urgent", "high", "medium", "low"}
  {
    match priority
    case "urgent" => "bg-red-100 text-red-800"
    case "high" => "bg-orange-100 text-orange-800"
    case "medium" => "bg-yellow-100 text-yellow-800"
    case "low" => "bg-green-100 text-green-800"
    case _ => Gray
  }

  /** The four priorities get four distinct badges; everything else shares gray. */
  lemma PriorityColorSeparates(p: string, q: string)
    ensures PriorityColor(p) == PriorityColor(q) <==>
      p == q || (p !in {"urgent", "high", "medium", "low"} && q !in {"urgent", "high", "medium", "low"})
  {
  }

  /** Priority badge classes of the authority issue list, with borders. */
  function AuthorityPriorityColor(priority: string): (r: string)
    ensures r == GrayBordered <==> priority !in {"urgent", "high", "medium", "low"}
    ensures PriorityColor(priority) <= r
  {
    match priority
    case "urgent" => "bg-red-100 text-red-800 border-red-200"
    case "high" => "bg-orange-100 text-orange-800 border-orange-200"
    case "medium" => "bg-yellow-100 text-yellow-800 border-yellow-200"
    case "low" => "bg-green-100 text-green-800 border-green-200"
    case _ => GrayBordered
  }
}

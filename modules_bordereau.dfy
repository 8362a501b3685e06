// src/core/generation/bordereau/modules/ModulesBordereau.ts: the position
// of a reading zone on the cover sheet, in PDF points from the top-left
// corner of the page.
module ModulesBordereau {
  datatype LayoutPosition = LayoutPosition(x: real, y: real, largeur: real, hauteur: real)

  /** Two zones share no point: one lies strictly left of, right of, above or below the other. */
  predicate Disjointes(a: LayoutPosition, b: LayoutPosition)
  {
    a.x + a.largeur < b.x || b.x + b.largeur < a.x || a.y + a.hauteur < b.y || b.y + b.hauteur < a.y
  }
}

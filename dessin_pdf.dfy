// The PDFKit calls the attendance-sheet generators make on a document,
// recorded in the order they are issued. Coordinates are in points, from
// the top-left corner of the page; every stroke is black and 0.5 pt wide.
module DessinPdf {
  import opened Wrappers

  /** doc.font: 'Helvetica' or 'Helvetica-Bold'. */
  datatype Police = Helvetica | HelveticaGras

  /** The `align` option of doc.text ('left' when absent). */
  datatype Alignement = Gauche | Centre

  datatype Element =
    /** moveTo(x1, y1).lineTo(x2, y2).stroke(). */
    | Trait(x1: real, y1: real, x2: real, y2: real)
    /** rect(x, y, largeur, hauteur).fill(couleur). */
    | Fond(x: real, y: real, largeur: real, hauteur: real, couleur: string)
    /** rect(x, y, largeur, hauteur).stroke(). */
    | Cadre(x: real, y: real, largeur: real, hauteur: real)
    /** text(contenu, x, y, ...) in the current font and size; `largeurMax` is the `width` option (the text is cut with an ellipsis beyond it). */
    | Texte(contenu: string, x: real, y: real, police: Police, taille: real, alignement: Alignement, largeurMax: Option<real>)
    /** addPage(). */
    | NouvellePage
}

/** A spectral band as the panels and the notebooks store it. */
module SpectralBand {
  /** (lambda_min, lambda_max), in micrometres. */
  type Band = (real, real)
}
